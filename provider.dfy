/** The four fetch procedures of the weather service client (city lookup, life
    index, current conditions, 3-day forecast) and the batch of all life indices.

    Each one first reads its cache entry and returns a truthy cached value without
    any request; otherwise it runs the shared retry loop of module Retry with its
    own treatment of an HTTP 200 body. The service's replies are given as one
    outcome per attempt, the clock as `now` (seconds) and pauses are counted. */
module Provider {
  import opened JsonValues
  import opened Cache
  import opened Retry

  /** Number of attempts the callers use. */
  const DefaultMaxRetries: nat := 3

  // The user-facing texts the procedures return; only their identity matters.
  const TimeoutMessage: string := "请求超时，请检查网络连接"
  const NetworkErrorPrefix: string := "网络请求异常: "
  const RequestFailedMessage: string := "请求失败，请稍后重试"
  const CitySearchFailedPrefix: string := "城市搜索失败: "
  const UnknownErrorText: string := "未知错误"
  const ErrorPrefix: string := "错误: "
  const UnknownText: string := "未知"
  const IndexTimeoutText: string := "请求超时"
  const IndexNetworkText: string := "网络异常"

  /** The six life-index types, as (type code, display name), in table order. */
  const LifeIndices: seq<(string, string)> :=
    [("1", "运动指数"), ("2", "洗车指数"), ("3", "穿衣指数"),
     ("5", "紫外线指数"), ("9", "感冒指数"), ("13", "舒适度指数")]

  // ----- Decoded bodies of HTTP 200 replies, one type per endpoint -----

  datatype CityRecord = CityRecord(id: string, name: string)
  /** City lookup reply; `message` may be absent. */
  datatype CityEnvelope = CityEnvelope(code: string, message: Option<string>, location: seq<CityRecord>)

  datatype IndexDay = IndexDay(level: string, category: string)
  /** A non-empty list of days; the code reads the first one unconditionally. */
  type IndexDays = s: seq<IndexDay> | s != [] witness [IndexDay("", "")]
  /** Life-index reply. */
  datatype IndexEnvelope = IndexEnvelope(code: string, daily: IndexDays)

  /** Current-conditions or forecast reply: `body` is the `now` object of the
      former and the `daily` list of the latter; both are passed on unmodified. */
  datatype ReportEnvelope = ReportEnvelope(code: string, message: string, body: Json)

  // ----- What the procedures return -----

  /** `(id, name)` on success, `(None, message)` on failure. */
  datatype CityResult = CityFound(id: Json, name: Json) | CityFailed(message: string)
  /** The `(level, category)` pair; failures are sentinel text in the same shape. */
  datatype IndexReading = IndexReading(level: Json, category: Json)
  /** `(data, None)` on success, `(None, error)` on failure. */
  datatype ReportResult = Report(data: Json) | ReportFailed(error: string)

  /** A call's result, its request and pause counts, and the cache directory after it. */
  datatype Fetch<R> = Fetch(result: R, attempts: nat, sleeps: nat, files: map<string, Json>)

  // ===== City lookup =====

  /** Code "200" with at least one match is accepted with the first match, whose
      `{id, name}` is cached; anything else is final, with the service's message. */
  function CityVerdict(e: CityEnvelope): (v: Verdict<CityResult>)
    ensures !v.Again?
    ensures v.Accept? <==> e.code == "200" && |e.location| > 0
    ensures v.Accept? ==>
              && v.result == CityFound(JStr(e.location[0].id), JStr(e.location[0].name))
              && Truthy(v.payload)
              && Field(v.payload, "id") == Some(v.result.id)
              && Field(v.payload, "name") == Some(v.result.name)
    ensures v.Reject? ==>
              v.result == CityFailed(CitySearchFailedPrefix + (if e.message.Some? then e.message.value else UnknownErrorText))
  {
    if e.code == "200" && e.location != [] then
      var first := e.location[0];
      Accept(CityFound(JStr(first.id), JStr(first.name)), Pair("id", JStr(first.id), "name", JStr(first.name)))
    else
      Reject(CityFailed(CitySearchFailedPrefix + (if e.message.Some? then e.message.value else UnknownErrorText)))
  }

  function CityNetErr(detail: string): CityResult {
    CityFailed(NetworkErrorPrefix + detail)
  }

  const CityEndpoint: Endpoint<CityEnvelope, CityResult> :=
    Endpoint(CityVerdict, CityFailed(TimeoutMessage), CityNetErr, CityFailed(RequestFailedMessage))

  /** A truthy cached city entry has the two keys the code reads (it raises otherwise). */
  predicate CityHitUsable(files: map<string, Json>, cityName: string, now: int) {
    var hit := Lookup(files, CachePath(cityName, "city"), now);
    hit.Some? && Truthy(hit.value) ==> Field(hit.value, "id").Some? && Field(hit.value, "name").Some?
  }

  /** What a city lookup does to the result, the counters and the cache. */
  function CityLookup(files: map<string, Json>, cityName: string, outcomes: seq<Outcome<CityEnvelope>>,
                      maxRetries: nat, now: int): Fetch<CityResult>
    requires maxRetries <= |outcomes|
    requires CityHitUsable(files, cityName, now)
  {
    var hit := Lookup(files, CachePath(cityName, "city"), now);
    if hit.Some? && Truthy(hit.value) then
      Fetch(CityFound(Field(hit.value, "id").value, Field(hit.value, "name").value), 0, 0, files)
    else
      var run := RunFrom(CityEndpoint, outcomes, 0, maxRetries);
      Fetch(run.result, run.attempts, run.sleeps, Store(files, cityName, "city", run.stored, now))
  }

  method GetCityId(cache: CacheManager, cityName: string, outcomes: seq<Outcome<CityEnvelope>>,
                   maxRetries: nat, now: int)
    returns (r: CityResult, attempts: nat, sleeps: nat)
    requires maxRetries <= |outcomes|
    requires CityHitUsable(cache.files, cityName, now)
    modifies cache
    ensures Fetch(r, attempts, sleeps, cache.files) == CityLookup(old(cache.files), cityName, outcomes, maxRetries, now)
  {
    var cacheKey := cityName;
    var cachedData := cache.GetFromCache(cacheKey, "city", now);
    if cachedData.Some? && Truthy(cachedData.value) {
      return CityFound(Field(cachedData.value, "id").value, Field(cachedData.value, "name").value), 0, 0;
    }
    var run := FetchWithRetries(cache, cacheKey, "city", CityEndpoint, outcomes, maxRetries, now);
    r, attempts, sleeps := run.result, run.attempts, run.sleeps;
  }

  /** A truthy unexpired entry answers the lookup with no request and no write. */
  lemma CityHitServed(files: map<string, Json>, cityName: string, outcomes: seq<Outcome<CityEnvelope>>,
                      maxRetries: nat, now: int)
    requires maxRetries <= |outcomes|
    requires CityHitUsable(files, cityName, now)
    requires Lookup(files, CachePath(cityName, "city"), now).Some?
    requires Truthy(Lookup(files, CachePath(cityName, "city"), now).value)
    ensures var f := CityLookup(files, cityName, outcomes, maxRetries, now);
            var hit := Lookup(files, CachePath(cityName, "city"), now).value;
            && f.attempts == 0 && f.sleeps == 0 && f.files == files
            && f.result == CityFound(hit.fields["id"], hit.fields["name"])
  {
  }

  /** A 200 reply whose code is not "200", or whose match list is empty, ends the
      lookup at that attempt with the service's message, without caching. */
  lemma CityRejectedWithoutRetry(files: map<string, Json>, cityName: string, outcomes: seq<Outcome<CityEnvelope>>,
                                 maxRetries: nat, now: int, i: nat)
    requires i < maxRetries <= |outcomes|
    requires CityHitUsable(files, cityName, now)
    requires var hit := Lookup(files, CachePath(cityName, "city"), now); !(hit.Some? && Truthy(hit.value))
    requires forall j :: 0 <= j < i ==> !Stops(CityEndpoint, outcomes[j], j, maxRetries)
    requires outcomes[i].Status? && outcomes[i].code == 200
    requires outcomes[i].envelope.code != "200" || outcomes[i].envelope.location == []
    ensures var f := CityLookup(files, cityName, outcomes, maxRetries, now);
            var e := outcomes[i].envelope;
            && f.result == CityFailed(CitySearchFailedPrefix + (if e.message.Some? then e.message.value else UnknownErrorText))
            && f.attempts == i + 1 && f.sleeps == i && f.files == files
  {
    RunFirstStop(CityEndpoint, outcomes, 0, i, maxRetries);
  }

  /** With the default number of attempts, a city lookup that is not served from the
      cache and always times out makes three requests with two pauses between them,
      reports the timeout and caches nothing. */
  lemma CityTimeoutsAtDefault(files: map<string, Json>, cityName: string, outcomes: seq<Outcome<CityEnvelope>>, now: int)
    requires DefaultMaxRetries <= |outcomes|
    requires CityHitUsable(files, cityName, now)
    requires var hit := Lookup(files, CachePath(cityName, "city"), now); !(hit.Some? && Truthy(hit.value))
    requires forall j :: 0 <= j < DefaultMaxRetries ==> outcomes[j] == Timeout
    ensures CityLookup(files, cityName, outcomes, DefaultMaxRetries, now)
            == Fetch(CityFailed(TimeoutMessage), 3, 2, files)
  {
    AllTimeouts(CityEndpoint, outcomes, DefaultMaxRetries);
  }

  /** A lookup that resolved the city over the network caches `{id, name}` of the
      first match; a second lookup within CacheExpiry seconds returns the same city
      with no request. */
  lemma CityResolvedThenCached(files: map<string, Json>, cityName: string,
                               o1: seq<Outcome<CityEnvelope>>, n1: nat, now1: int,
                               o2: seq<Outcome<CityEnvelope>>, n2: nat, now2: int)
    requires n1 <= |o1| && n2 <= |o2|
    requires CityHitUsable(files, cityName, now1)
    requires var hit := Lookup(files, CachePath(cityName, "city"), now1); !(hit.Some? && Truthy(hit.value))
    requires CityLookup(files, cityName, o1, n1, now1).result.CityFound?
    requires now2 - now1 <= CacheExpiry
    ensures var f1 := CityLookup(files, cityName, o1, n1, now1);
            && CityHitUsable(f1.files, cityName, now2)
            && CityLookup(f1.files, cityName, o2, n2, now2) == Fetch(f1.result, 0, 0, f1.files)
  {
    var run := RunFrom(CityEndpoint, o1, 0, n1);
    RunOrigin(CityEndpoint, o1, 0, n1);
    assert run.stored.Some?;
    var e :| CityVerdict(e) == Accept(run.result, run.stored.value);
    ReadAfterSave(files, cityName, "city", run.stored.value, now1, now2);
  }

  // ===== Life index =====

  /** Cache key of one index type for one city. */
  function IndexKey(cityId: string, indexType: string): (k: string)
    ensures |k| == |cityId| + 1 + |indexType|
    ensures k[..|cityId|] == cityId && k[|cityId|] == '_' && k[|cityId| + 1..] == indexType
  {
    cityId + "_" + indexType
  }

  /** Only code "200" is accepted, with the first day's level and category; any
      other code falls through to the next attempt. */
  function IndexVerdict(e: IndexEnvelope): (v: Verdict<IndexReading>)
    ensures !v.Reject?
    ensures v.Accept? <==> e.code == "200"
    ensures v.Accept? ==>
              && v.result == IndexReading(JStr(e.daily[0].level), JStr(e.daily[0].category))
              && Field(v.payload, "level") == Some(v.result.level)
              && Field(v.payload, "category") == Some(v.result.category)
  {
    if e.code == "200" then
      var day := e.daily[0];
      Accept(IndexReading(JStr(day.level), JStr(day.category)),
             Pair("level", JStr(day.level), "category", JStr(day.category)))
    else Again
  }

  function IndexNetErr(detail: string): IndexReading {
    IndexReading(JStr(UnknownText), JStr(IndexNetworkText))
  }

  const IndexEndpoint: Endpoint<IndexEnvelope, IndexReading> :=
    Endpoint(IndexVerdict, IndexReading(JStr(UnknownText), JStr(IndexTimeoutText)), IndexNetErr,
             IndexReading(JStr(UnknownText), JStr(UnknownText)))

  /** A truthy cached index entry has the two keys the code reads (it raises otherwise). */
  predicate IndexHitUsable(files: map<string, Json>, cityId: string, indexType: string, now: int) {
    var hit := Lookup(files, CachePath(IndexKey(cityId, indexType), "index"), now);
    hit.Some? && Truthy(hit.value) ==> Field(hit.value, "level").Some? && Field(hit.value, "category").Some?
  }

  /** What a life-index query does to the result, the counters and the cache. */
  function LifeIndexLookup(files: map<string, Json>, cityId: string, indexType: string,
                           outcomes: seq<Outcome<IndexEnvelope>>, maxRetries: nat, now: int): Fetch<IndexReading>
    requires maxRetries <= |outcomes|
    requires IndexHitUsable(files, cityId, indexType, now)
  {
    var hit := Lookup(files, CachePath(IndexKey(cityId, indexType), "index"), now);
    if hit.Some? && Truthy(hit.value) then
      Fetch(IndexReading(Field(hit.value, "level").value, Field(hit.value, "category").value), 0, 0, files)
    else
      var run := RunFrom(IndexEndpoint, outcomes, 0, maxRetries);
      Fetch(run.result, run.attempts, run.sleeps, Store(files, IndexKey(cityId, indexType), "index", run.stored, now))
  }

  method GetLifeIndex(cache: CacheManager, cityId: string, indexType: string, outcomes: seq<Outcome<IndexEnvelope>>,
                      maxRetries: nat, now: int)
    returns (r: IndexReading, attempts: nat, sleeps: nat)
    requires maxRetries <= |outcomes|
    requires IndexHitUsable(cache.files, cityId, indexType, now)
    modifies cache
    ensures Fetch(r, attempts, sleeps, cache.files)
            == LifeIndexLookup(old(cache.files), cityId, indexType, outcomes, maxRetries, now)
  {
    var cacheKey := IndexKey(cityId, indexType);
    var cachedData := cache.GetFromCache(cacheKey, "index", now);
    if cachedData.Some? && Truthy(cachedData.value) {
      return IndexReading(Field(cachedData.value, "level").value, Field(cachedData.value, "category").value), 0, 0;
    }
    var run := FetchWithRetries(cache, cacheKey, "index", IndexEndpoint, outcomes, maxRetries, now);
    r, attempts, sleeps := run.result, run.attempts, run.sleeps;
  }

  /** A code other than "200" is not final for a life index: when every attempt gets
      one, all attempts are made and the reading is the unknown/unknown sentinel. */
  lemma LifeIndexRejectionRetried(files: map<string, Json>, cityId: string, indexType: string,
                                  outcomes: seq<Outcome<IndexEnvelope>>, maxRetries: nat, now: int)
    requires 0 < maxRetries <= |outcomes|
    requires IndexHitUsable(files, cityId, indexType, now)
    requires var hit := Lookup(files, CachePath(IndexKey(cityId, indexType), "index"), now);
             !(hit.Some? && Truthy(hit.value))
    requires forall j :: 0 <= j < maxRetries ==>
               outcomes[j].Status? && outcomes[j].code == 200 && outcomes[j].envelope.code != "200"
    ensures LifeIndexLookup(files, cityId, indexType, outcomes, maxRetries, now)
            == Fetch(IndexReading(JStr(UnknownText), JStr(UnknownText)), maxRetries, maxRetries - 1, files)
  {
    RunNoStop(IndexEndpoint, outcomes, 0, maxRetries);
  }

  /** A fetched reading is cached as `{level, category}` of the first day; a second
      query within CacheExpiry seconds returns it with no request. */
  lemma LifeIndexFetchedThenCached(files: map<string, Json>, cityId: string, indexType: string,
                                   o1: seq<Outcome<IndexEnvelope>>, n1: nat, now1: int,
                                   o2: seq<Outcome<IndexEnvelope>>, n2: nat, now2: int)
    requires n1 <= |o1| && n2 <= |o2|
    requires IndexHitUsable(files, cityId, indexType, now1)
    requires var hit := Lookup(files, CachePath(IndexKey(cityId, indexType), "index"), now1);
             !(hit.Some? && Truthy(hit.value))
    requires RunFrom(IndexEndpoint, o1, 0, n1).stored.Some?
    requires now2 - now1 <= CacheExpiry
    ensures var f1 := LifeIndexLookup(files, cityId, indexType, o1, n1, now1);
            && IndexHitUsable(f1.files, cityId, indexType, now2)
            && LifeIndexLookup(f1.files, cityId, indexType, o2, n2, now2) == Fetch(f1.result, 0, 0, f1.files)
  {
    var run := RunFrom(IndexEndpoint, o1, 0, n1);
    RunOrigin(IndexEndpoint, o1, 0, n1);
    var e :| IndexVerdict(e) == Accept(run.result, run.stored.value);
    ReadAfterSave(files, IndexKey(cityId, indexType), "index", run.stored.value, now1, now2);
  }

  /** Index types without '_' make the index key injective: distinct (city, type)
      pairs never share a cache entry. */
  lemma IndexKeyInjective(c1: string, t1: string, c2: string, t2: string)
    requires '_' !in t1 && '_' !in t2
    requires IndexKey(c1, t1) == IndexKey(c2, t2)
    ensures c1 == c2 && t1 == t2
  {
    var k := IndexKey(c1, t1);
    assert k == (c1 + "_") + t1 && k == (c2 + "_") + t2;
    SeparatorInLonger(c1, t1, c2, t2);
    SeparatorInLonger(c2, t2, c1, t1);
    assert t1 == k[|k| - |t1|..] == t2;
    assert c1 == k[..|c1|] == c2;
  }

  /** When two keys coincide, the separator before the shorter type falls inside the longer one. */
  lemma SeparatorInLonger(c1: string, t1: string, c2: string, t2: string)
    requires IndexKey(c1, t1) == IndexKey(c2, t2)
    ensures |t2| <= |t1| || '_' in t2
  {
    var k := IndexKey(c1, t1);
    if |t1| < |t2| {
      assert k == (c1 + "_") + t1 && k == (c2 + "_") + t2;
      assert t2[|t2| - |t1| - 1] == k[|k| - |t1| - 1] == '_';
    }
  }

  // ===== Current conditions and 3-day forecast =====

  /** Code "200" hands back the body; any other code is final, with code and message. */
  function ReportVerdict(e: ReportEnvelope): (v: Verdict<ReportResult>)
    ensures !v.Again?
    ensures v.Accept? <==> e.code == "200"
    ensures v.Accept? ==> v.result == Report(e.body) && v.payload == e.body
    ensures v.Reject? ==> v.result == ReportFailed(ErrorPrefix + e.code + " - " + e.message)
  {
    if e.code == "200" then Accept(Report(e.body), e.body)
    else Reject(ReportFailed(ErrorPrefix + e.code + " - " + e.message))
  }

  function ReportNetErr(detail: string): ReportResult {
    ReportFailed(NetworkErrorPrefix + detail)
  }

  const ReportEndpoint: Endpoint<ReportEnvelope, ReportResult> :=
    Endpoint(ReportVerdict, ReportFailed(TimeoutMessage), ReportNetErr, ReportFailed(RequestFailedMessage))

  /** What a current-conditions ("weather") or forecast ("forecast") query does. */
  function ReportLookup(files: map<string, Json>, cacheType: string, cityId: string,
                        outcomes: seq<Outcome<ReportEnvelope>>, maxRetries: nat, now: int): Fetch<ReportResult>
    requires maxRetries <= |outcomes|
  {
    var hit := Lookup(files, CachePath(cityId, cacheType), now);
    if hit.Some? && Truthy(hit.value) then Fetch(Report(hit.value), 0, 0, files)
    else
      var run := RunFrom(ReportEndpoint, outcomes, 0, maxRetries);
      Fetch(run.result, run.attempts, run.sleeps, Store(files, cityId, cacheType, run.stored, now))
  }

  /** Current conditions: caches and returns the `now` object of the reply. */
  method GetWeather(cache: CacheManager, cityId: string, outcomes: seq<Outcome<ReportEnvelope>>,
                    maxRetries: nat, now: int)
    returns (r: ReportResult, attempts: nat, sleeps: nat)
    requires maxRetries <= |outcomes|
    modifies cache
    ensures Fetch(r, attempts, sleeps, cache.files) == ReportLookup(old(cache.files), "weather", cityId, outcomes, maxRetries, now)
  {
    var cacheKey := cityId;
    var cachedData := cache.GetFromCache(cacheKey, "weather", now);
    if cachedData.Some? && Truthy(cachedData.value) {
      return Report(cachedData.value), 0, 0;
    }
    var run := FetchWithRetries(cache, cacheKey, "weather", ReportEndpoint, outcomes, maxRetries, now);
    r, attempts, sleeps := run.result, run.attempts, run.sleeps;
  }

  /** 3-day forecast: caches and returns the `daily` list of the reply. */
  method Get3DayForecast(cache: CacheManager, cityId: string, outcomes: seq<Outcome<ReportEnvelope>>,
                         maxRetries: nat, now: int)
    returns (r: ReportResult, attempts: nat, sleeps: nat)
    requires maxRetries <= |outcomes|
    modifies cache
    ensures Fetch(r, attempts, sleeps, cache.files) == ReportLookup(old(cache.files), "forecast", cityId, outcomes, maxRetries, now)
  {
    var cacheKey := cityId;
    var cachedData := cache.GetFromCache(cacheKey, "forecast", now);
    if cachedData.Some? && Truthy(cachedData.value) {
      return Report(cachedData.value), 0, 0;
    }
    var run := FetchWithRetries(cache, cacheKey, "forecast", ReportEndpoint, outcomes, maxRetries, now);
    r, attempts, sleeps := run.result, run.attempts, run.sleeps;
  }

  /** A 200 reply with a code other than "200" ends the query at that attempt with
      the error text built from code and message, without caching. */
  lemma ReportRejectedWithoutRetry(files: map<string, Json>, cacheType: string, cityId: string,
                                   outcomes: seq<Outcome<ReportEnvelope>>, maxRetries: nat, now: int, i: nat)
    requires i < maxRetries <= |outcomes|
    requires var hit := Lookup(files, CachePath(cityId, cacheType), now); !(hit.Some? && Truthy(hit.value))
    requires forall j :: 0 <= j < i ==> !Stops(ReportEndpoint, outcomes[j], j, maxRetries)
    requires outcomes[i].Status? && outcomes[i].code == 200 && outcomes[i].envelope.code != "200"
    ensures var f := ReportLookup(files, cacheType, cityId, outcomes, maxRetries, now);
            var e := outcomes[i].envelope;
            && f.result == ReportFailed(ErrorPrefix + e.code + " - " + e.message)
            && f.attempts == i + 1 && f.sleeps == i && f.files == files
  {
    RunFirstStop(ReportEndpoint, outcomes, 0, i, maxRetries);
  }

  /** A fetched body is cached; a second query within CacheExpiry seconds returns it
      with no request, provided the body is truthy. */
  lemma ReportFetchedThenCached(files: map<string, Json>, cacheType: string, cityId: string,
                                o1: seq<Outcome<ReportEnvelope>>, n1: nat, now1: int,
                                o2: seq<Outcome<ReportEnvelope>>, n2: nat, now2: int)
    requires n1 <= |o1| && n2 <= |o2|
    requires var hit := Lookup(files, CachePath(cityId, cacheType), now1); !(hit.Some? && Truthy(hit.value))
    requires ReportLookup(files, cacheType, cityId, o1, n1, now1).result.Report?
    requires Truthy(ReportLookup(files, cacheType, cityId, o1, n1, now1).result.data)
    requires now2 - now1 <= CacheExpiry
    ensures var f1 := ReportLookup(files, cacheType, cityId, o1, n1, now1);
            ReportLookup(f1.files, cacheType, cityId, o2, n2, now2) == Fetch(f1.result, 0, 0, f1.files)
  {
    var run := RunFrom(ReportEndpoint, o1, 0, n1);
    RunOrigin(ReportEndpoint, o1, 0, n1);
    assert run.stored.Some?;
    var e :| ReportVerdict(e) == Accept(run.result, run.stored.value);
    ReadAfterSave(files, cityId, cacheType, run.stored.value, now1, now2);
  }

  /** The cache test is truthiness: a falsy body (an empty forecast list, an empty
      object) is cached but never served, so the next query goes to the network. */
  lemma ReportFalsyBodyRefetched(files: map<string, Json>, cacheType: string, cityId: string,
                                 o1: seq<Outcome<ReportEnvelope>>, n1: nat, now1: int,
                                 o2: seq<Outcome<ReportEnvelope>>, n2: nat, now2: int)
    requires n1 <= |o1| && n2 <= |o2|
    requires var hit := Lookup(files, CachePath(cityId, cacheType), now1); !(hit.Some? && Truthy(hit.value))
    requires ReportLookup(files, cacheType, cityId, o1, n1, now1).result.Report?
    requires !Truthy(ReportLookup(files, cacheType, cityId, o1, n1, now1).result.data)
    ensures var f1 := ReportLookup(files, cacheType, cityId, o1, n1, now1);
            var run := RunFrom(ReportEndpoint, o2, 0, n2);
            && ReportLookup(f1.files, cacheType, cityId, o2, n2, now2).attempts == run.attempts
            && (0 < n2 ==> 0 < run.attempts)
  {
    var run1 := RunFrom(ReportEndpoint, o1, 0, n1);
    RunOrigin(ReportEndpoint, o1, 0, n1);
    assert run1.stored.Some?;
    var e :| ReportVerdict(e) == Accept(run1.result, run1.stored.value);
    RunBounds(ReportEndpoint, o2, 0, n2);
  }

  // ===== All life indices =====

  /** Every index type of the table, from position `i` on, has a usable cache entry. */
  predicate IndicesUsable(files: map<string, Json>, cityId: string, now: int, i: nat) {
    forall j :: i <= j < |LifeIndices| ==> IndexHitUsable(files, cityId, LifeIndices[j].0, now)
  }

  /** The replies for each index type's attempts cover `maxRetries` attempts. */
  predicate RepliesCover(perIndex: seq<seq<Outcome<IndexEnvelope>>>, maxRetries: nat) {
    |perIndex| == |LifeIndices| && forall j :: 0 <= j < |perIndex| ==> maxRetries <= |perIndex[j]|
  }

  /** Distinct index types of the table have distinct cache files. */
  lemma IndexPathsDistinct(cityId: string, i: nat, j: nat)
    requires i < |LifeIndices| && j < |LifeIndices| && i != j
    ensures CachePath(IndexKey(cityId, LifeIndices[i].0), "index") != CachePath(IndexKey(cityId, LifeIndices[j].0), "index")
  {
    var ki := IndexKey(cityId, LifeIndices[i].0);
    var kj := IndexKey(cityId, LifeIndices[j].0);
    // The keys differ after the city part, and a file name gives back its key.
    assert ki[|cityId| + 1..] != kj[|cityId| + 1..];
    assert CachePath(ki, "index")[6..|CachePath(ki, "index")| - 5] == ki;
    assert CachePath(kj, "index")[6..|CachePath(kj, "index")| - 5] == kj;
  }

  /** Index `i`'s query leaves the other table entries' cache files as they were. */
  lemma LifeIndexLeavesOthers(files: map<string, Json>, cityId: string, i: nat, outcomes: seq<Outcome<IndexEnvelope>>,
                              maxRetries: nat, now: int, j: nat)
    requires i < |LifeIndices| && j < |LifeIndices| && i != j && maxRetries <= |outcomes|
    requires IndexHitUsable(files, cityId, LifeIndices[i].0, now)
    ensures var f := LifeIndexLookup(files, cityId, LifeIndices[i].0, outcomes, maxRetries, now);
            var p := CachePath(IndexKey(cityId, LifeIndices[j].0), "index");
            Lookup(f.files, p, now) == Lookup(files, p, now)
  {
    IndexPathsDistinct(cityId, i, j);
  }

  /** Two caches that read the same for one index entry give the same query. */
  lemma LifeIndexSameEntry(f1: map<string, Json>, f2: map<string, Json>, cityId: string, indexType: string,
                           outcomes: seq<Outcome<IndexEnvelope>>, maxRetries: nat, now: int)
    requires maxRetries <= |outcomes|
    requires var p := CachePath(IndexKey(cityId, indexType), "index"); Lookup(f1, p, now) == Lookup(f2, p, now)
    requires IndexHitUsable(f1, cityId, indexType, now)
    ensures IndexHitUsable(f2, cityId, indexType, now)
    ensures LifeIndexLookup(f1, cityId, indexType, outcomes, maxRetries, now).result
            == LifeIndexLookup(f2, cityId, indexType, outcomes, maxRetries, now).result
  {
  }

  /** After index `i`'s query, the later table entries are still usable. */
  lemma IndicesUsableAfter(files: map<string, Json>, cityId: string, perIndex: seq<seq<Outcome<IndexEnvelope>>>,
                           maxRetries: nat, now: int, i: nat)
    requires i < |LifeIndices|
    requires RepliesCover(perIndex, maxRetries)
    requires IndicesUsable(files, cityId, now, i)
    ensures IndicesUsable(LifeIndexLookup(files, cityId, LifeIndices[i].0, perIndex[i], maxRetries, now).files,
                          cityId, now, i + 1)
  {
    var f := LifeIndexLookup(files, cityId, LifeIndices[i].0, perIndex[i], maxRetries, now);
    forall j | i + 1 <= j < |LifeIndices|
      ensures IndexHitUsable(f.files, cityId, LifeIndices[j].0, now)
    {
      LifeIndexLeavesOthers(files, cityId, i, perIndex[i], maxRetries, now, j);
      LifeIndexSameEntry(files, f.files, cityId, LifeIndices[j].0, perIndex[j], maxRetries, now);
    }
  }

  /** The batch from table position `i` on: readings in table order and the final cache. */
  function IndicesFrom(files: map<string, Json>, cityId: string, perIndex: seq<seq<Outcome<IndexEnvelope>>>,
                       maxRetries: nat, now: int, i: nat): (seq<(string, IndexReading)>, map<string, Json>)
    requires i <= |LifeIndices|
    requires RepliesCover(perIndex, maxRetries)
    requires IndicesUsable(files, cityId, now, i)
    decreases |LifeIndices| - i
  {
    if i == |LifeIndices| then ([], files)
    else
      var f := LifeIndexLookup(files, cityId, LifeIndices[i].0, perIndex[i], maxRetries, now);
      IndicesUsableAfter(files, cityId, perIndex, maxRetries, now, i);
      var rest := IndicesFrom(f.files, cityId, perIndex, maxRetries, now, i + 1);
      ([(LifeIndices[i].1, f.result)] + rest.0, rest.1)
  }

  /** Queries each index type in table order and collects `{name: (level, category)}`. */
  method GetAllLifeIndices(cache: CacheManager, cityId: string, perIndex: seq<seq<Outcome<IndexEnvelope>>>,
                           maxRetries: nat, now: int)
    returns (indices: seq<(string, IndexReading)>)
    requires RepliesCover(perIndex, maxRetries)
    requires IndicesUsable(cache.files, cityId, now, 0)
    modifies cache
    ensures (indices, cache.files) == IndicesFrom(old(cache.files), cityId, perIndex, maxRetries, now, 0)
  {
    indices := [];
    var i := 0;
    assert indices + IndicesFrom(cache.files, cityId, perIndex, maxRetries, now, i).0
           == IndicesFrom(cache.files, cityId, perIndex, maxRetries, now, i).0;
    while i < |LifeIndices|
      invariant i <= |LifeIndices|
      invariant IndicesUsable(cache.files, cityId, now, i)
      invariant indices + IndicesFrom(cache.files, cityId, perIndex, maxRetries, now, i).0
                == IndicesFrom(old(cache.files), cityId, perIndex, maxRetries, now, 0).0
      invariant IndicesFrom(cache.files, cityId, perIndex, maxRetries, now, i).1
                == IndicesFrom(old(cache.files), cityId, perIndex, maxRetries, now, 0).1
      decreases |LifeIndices| - i
    {
      ghost var before := cache.files;
      var indexId := LifeIndices[i].0;
      var indexName := LifeIndices[i].1;
      IndicesUsableAfter(before, cityId, perIndex, maxRetries, now, i);
      var reading, _, _ := GetLifeIndex(cache, cityId, indexId, perIndex[i], maxRetries, now);
      ghost var rest := IndicesFrom(cache.files, cityId, perIndex, maxRetries, now, i + 1);
      assert IndicesFrom(before, cityId, perIndex, maxRetries, now, i) == ([(indexName, reading)] + rest.0, rest.1);
      assert indices + [(indexName, reading)] + rest.0 == indices + ([(indexName, reading)] + rest.0);
      indices := indices + [(indexName, reading)];
      i := i + 1;
    }
    assert indices + IndicesFrom(cache.files, cityId, perIndex, maxRetries, now, i).0 == indices;
  }

  /** The batch has one entry per table row, in table order, and each entry is what
      a query of that index type alone on the starting cache returns, sentinel
      readings included: earlier queries of the batch do not affect later ones. */
  lemma {:induction false} AllIndicesAsQueried(files: map<string, Json>, cityId: string,
                                               perIndex: seq<seq<Outcome<IndexEnvelope>>>,
                                               maxRetries: nat, now: int, i: nat)
    requires i <= |LifeIndices|
    requires RepliesCover(perIndex, maxRetries)
    requires IndicesUsable(files, cityId, now, i)
    ensures var batch := IndicesFrom(files, cityId, perIndex, maxRetries, now, i).0;
            && |batch| == |LifeIndices| - i
            && forall k :: i <= k < |LifeIndices| ==>
                 batch[k - i] == (LifeIndices[k].1, LifeIndexLookup(files, cityId, LifeIndices[k].0, perIndex[k], maxRetries, now).result)
    decreases |LifeIndices| - i
  {
    if i < |LifeIndices| {
      var f := LifeIndexLookup(files, cityId, LifeIndices[i].0, perIndex[i], maxRetries, now);
      IndicesUsableAfter(files, cityId, perIndex, maxRetries, now, i);
      AllIndicesAsQueried(f.files, cityId, perIndex, maxRetries, now, i + 1);
      forall k | i + 1 <= k < |LifeIndices|
        ensures LifeIndexLookup(f.files, cityId, LifeIndices[k].0, perIndex[k], maxRetries, now).result
             == LifeIndexLookup(files, cityId, LifeIndices[k].0, perIndex[k], maxRetries, now).result
      {
        LifeIndexLeavesOthers(files, cityId, i, perIndex[i], maxRetries, now, k);
        LifeIndexSameEntry(files, f.files, cityId, LifeIndices[k].0, perIndex[k], maxRetries, now);
      }
    }
  }

  /** The six display names are distinct, so the batch is a mapping of size six. */
  lemma LifeIndexNamesDistinct()
    ensures |LifeIndices| == 6
    ensures forall i, j :: 0 <= i < j < |LifeIndices| ==> LifeIndices[i].1 != LifeIndices[j].1
  {
  }
}
