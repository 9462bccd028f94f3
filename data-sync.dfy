/** `DataSyncService`: read-through caching of the three external data
    feeds (market quotes, IoT device state, weather) in Redis, each with its
    own time-to-live and failure policy. */
module DataSync {
  import opened Wrappers
  import opened Values
  import opened Models
  import opened Redis

  /** What the external HTTP request produced: a response body, or a thrown
      error (network failure, non-2xx status). */
  datatype FetchOutcome = Responded(body: Value) | FetchFailed(message: string)

  /** Everything outside this call that decides its result: the external
      response, and the entry another worker may have stored under the same
      cache key while this call was waiting for that response (the cache is
      shared by all workers). */
  datatype Remote = Remote(response: FetchOutcome, concurrentWrite: Option<Entry>)

  /** The cache after the concurrent write, if any, has landed. */
  function AfterRace(entries: map<string, Entry>, key: string, w: Option<Entry>): map<string, Entry>
  {
    if w.Some? then entries[key := w.value] else entries
  }

  const MarketTtl: nat := 300
  const IotTtl: nat := 60
  const WeatherTtl: nat := 1800

  function MarketKey(symbol: string): string { "market:" + symbol }
  function IotKey(deviceId: string): string { "iot:" + deviceId }
  function WeatherKey(location: string): string { "weather:" + location }

  /** The result of one read-through and the cache contents afterwards. */
  datatype Step = Step(result: Result<Value>, entries: map<string, Entry>)

  /** `syncMarketData`: the quote is the `Global Quote` member of the
      response; any failure is rethrown. */
  function MarketStep(entries: map<string, Entry>, symbol: string, now: int, remote: Remote): Step
  {
    var key := MarketKey(symbol);
    match Live(entries, key, now)
    case Some(p) => Step(Ok(p), entries)
    case None =>
      var raced := AfterRace(entries, key, remote.concurrentWrite);
      match remote.response
      case FetchFailed(msg) => Step(Err(Failure(msg)), raced)
      case Responded(body) =>
        var data := Member(body, "Global Quote");
        if !Truthy(data) then Step(Err(Failure("Invalid market data response")), raced)
        else Step(Ok(data), Stored(raced, key, data, MarketTtl, now))
  }

  /** `syncIoTData`: on a failure the cache is read again and whatever it
      holds is returned; only when it holds nothing is the error rethrown. */
  function IotStep(entries: map<string, Entry>, deviceId: string, now: int, remote: Remote): Step
  {
    var key := IotKey(deviceId);
    match Live(entries, key, now)
    case Some(p) => Step(Ok(p), entries)
    case None =>
      var raced := AfterRace(entries, key, remote.concurrentWrite);
      var fetched :=
        match remote.response
        case FetchFailed(msg) => Err(Failure(msg))
        case Responded(body) => if !Truthy(body) then Err(Failure("Invalid IoT data response")) else Ok(body);
      if fetched.Ok? then Step(fetched, Stored(raced, key, fetched.value, IotTtl, now))
      else
        match Live(raced, key, now)
        case Some(p) => Step(Ok(p), raced)
        case None => Step(fetched, raced)
  }

  /** The fixed reading `syncWeatherData` stands in for a weather API with. */
  function WeatherReading(now: int): Value
  {
    Obj(map["temperature" := Num(25), "humidity" := Num(60), "conditions" := Str("sunny"), "timestamp" := Time(now)])
  }

  /** `syncWeatherData`: no external call; a miss caches the fixed reading. */
  function WeatherStep(entries: map<string, Entry>, location: string, now: int): Step
  {
    var key := WeatherKey(location);
    match Live(entries, key, now)
    case Some(p) => Step(Ok(p), entries)
    case None => Step(Ok(WeatherReading(now)), Stored(entries, key, WeatherReading(now), WeatherTtl, now))
  }

  /** `getData`: dispatch on the field's source kind. */
  function GetDataStep(entries: map<string, Entry>, kind: SourceKind, source: string, now: int, remote: Remote): Step
  {
    match kind
    case Price => MarketStep(entries, source, now, remote)
    case Iot => IotStep(entries, source, now, remote)
    case Weather => WeatherStep(entries, source, now)
    case UnknownKind(raw) => Step(Err(Failure("Unsupported data type: " + raw)), entries)
  }

  function KeyFor(kind: SourceKind, source: string): string
    requires DeclaredKind(kind)
  {
    match kind
    case Price => MarketKey(source)
    case Iot => IotKey(source)
    case Weather => WeatherKey(source)
  }

  function TtlFor(kind: SourceKind): nat
    requires DeclaredKind(kind)
  {
    match kind
    case Price => MarketTtl
    case Iot => IotTtl
    case Weather => WeatherTtl
  }

  /** The read-through contract shared by the three kinds: a live entry is
      served as it is, whatever the external source would have answered; a
      miss that produces a value stores it under the kind's key prefix with
      the kind's time-to-live; a miss that fails writes nothing itself. */
  lemma ReadThrough(entries: map<string, Entry>, kind: SourceKind, source: string, now: int, remote: Remote, other: Remote)
    requires DeclaredKind(kind)
    ensures var key := KeyFor(kind, source);
      var s := GetDataStep(entries, kind, source, now, remote);
      && (Live(entries, key, now).Some? ==>
            s == Step(Ok(Live(entries, key, now).value), entries)
            && s == GetDataStep(entries, kind, source, now, other))
      && (Live(entries, key, now).None? && kind != Weather && s.result.Ok? && remote.response.Responded? && Truthy(remote.response.body) ==>
            s.entries == Stored(AfterRace(entries, key, remote.concurrentWrite), key, s.result.value, TtlFor(kind), now))
      && (Live(entries, key, now).None? && kind != Weather && s.result.Err? ==>
            s.entries == AfterRace(entries, key, remote.concurrentWrite))
  {
  }

  /** Market quotes: a response without a truthy `Global Quote` is an
      error, and a failure is never covered by any cache entry, not even one
      another worker has just written. */
  lemma MarketFailurePolicy(entries: map<string, Entry>, symbol: string, now: int, remote: Remote)
    requires Live(entries, MarketKey(symbol), now).None?
    ensures MarketStep(entries, symbol, now, remote).result.Ok? <==>
      remote.response.Responded? && Truthy(Member(remote.response.body, "Global Quote"))
    ensures remote.response.Responded? && !Truthy(Member(remote.response.body, "Global Quote")) ==>
      MarketStep(entries, symbol, now, remote).result == Err(Failure("Invalid market data response"))
    ensures remote.response.FetchFailed? ==>
      MarketStep(entries, symbol, now, remote).result == Err(Failure(remote.response.message))
  {
  }

  /** IoT: after a failed fetch the key is read again through the same
      expiring `GET`, so the fallback serves a value only when another
      worker stored a still-live entry meanwhile; an entry that had already
      expired at the first read is never served. Otherwise the error is
      rethrown. */
  lemma IotFallback(entries: map<string, Entry>, deviceId: string, now: int, remote: Remote)
    requires Live(entries, IotKey(deviceId), now).None?
    requires !(remote.response.Responded? && Truthy(remote.response.body))
    ensures var r := IotStep(entries, deviceId, now, remote).result;
      && (remote.concurrentWrite.Some? && now < remote.concurrentWrite.value.expiresAt ==>
            r == Ok(remote.concurrentWrite.value.payload))
      && (r.Ok? <==> remote.concurrentWrite.Some? && now < remote.concurrentWrite.value.expiresAt)
      && (!(remote.concurrentWrite.Some? && now < remote.concurrentWrite.value.expiresAt) && remote.response.FetchFailed? ==>
            r == Err(Failure(remote.response.message)))
      && (!(remote.concurrentWrite.Some? && now < remote.concurrentWrite.value.expiresAt) && remote.response.Responded? ==>
            r == Err(Failure("Invalid IoT data response")))
  {
  }

  /** Weather never fails: a miss returns and caches the fixed reading. */
  lemma WeatherMiss(entries: map<string, Entry>, location: string, now: int)
    requires Live(entries, WeatherKey(location), now).None?
    ensures WeatherStep(entries, location, now) ==
      Step(Ok(WeatherReading(now)), Stored(entries, WeatherKey(location), WeatherReading(now), 1800, now))
    ensures Member(WeatherReading(now), "temperature") == Num(25) && Member(WeatherReading(now), "humidity") == Num(60)
    ensures Member(WeatherReading(now), "conditions") == Str("sunny") && Member(WeatherReading(now), "timestamp") == Time(now)
  {
  }

  /** Any kind outside the three declared ones is an error and touches nothing. */
  lemma UnsupportedKind(entries: map<string, Entry>, kind: SourceKind, source: string, now: int, remote: Remote)
    requires !DeclaredKind(kind)
    ensures GetDataStep(entries, kind, source, now, remote) ==
      Step(Err(Failure("Unsupported data type: " + kind.raw)), entries)
  {
  }

  /** The concurrent write, if any, lands while the request is in flight. */
  method AwaitRemote(redis: Cache, key: string, remote: Remote)
    modifies redis
    ensures redis.entries == AfterRace(old(redis.entries), key, remote.concurrentWrite)
  {
    if remote.concurrentWrite.Some? {
      redis.Put(key, remote.concurrentWrite.value);
    }
  }

  method SyncMarketData(redis: Cache, symbol: string, now: int, remote: Remote) returns (r: Result<Value>)
    modifies redis
    ensures Step(r, redis.entries) == MarketStep(old(redis.entries), symbol, now, remote)
  {
    var cacheKey := MarketKey(symbol);
    var cached := redis.Get(cacheKey, now);
    if cached.Some? {
      return Ok(cached.value);
    }
    AwaitRemote(redis, cacheKey, remote);
    match remote.response {
      case FetchFailed(msg) =>
        r := Err(Failure(msg));
      case Responded(body) =>
        var data := Member(body, "Global Quote");
        if !Truthy(data) {
          r := Err(Failure("Invalid market data response"));
        } else {
          redis.Set(cacheKey, data, MarketTtl, now);
          r := Ok(data);
        }
    }
  }

  method SyncIoTData(redis: Cache, deviceId: string, now: int, remote: Remote) returns (r: Result<Value>)
    modifies redis
    ensures Step(r, redis.entries) == IotStep(old(redis.entries), deviceId, now, remote)
  {
    var cacheKey := IotKey(deviceId);
    var cached := redis.Get(cacheKey, now);
    if cached.Some? {
      return Ok(cached.value);
    }
    AwaitRemote(redis, cacheKey, remote);
    var error: Error;
    match remote.response {
      case FetchFailed(msg) =>
        error := Failure(msg);
      case Responded(body) =>
        if Truthy(body) {
          redis.Set(cacheKey, body, IotTtl, now);
          return Ok(body);
        }
        error := Failure("Invalid IoT data response");
    }
    // Serve the last known state from the cache if there is one.
    cached := redis.Get(cacheKey, now);
    if cached.Some? {
      return Ok(cached.value);
    }
    r := Err(error);
  }

  method SyncWeatherData(redis: Cache, location: string, now: int) returns (r: Result<Value>)
    modifies redis
    ensures Step(r, redis.entries) == WeatherStep(old(redis.entries), location, now)
  {
    var cacheKey := WeatherKey(location);
    var cached := redis.Get(cacheKey, now);
    if cached.Some? {
      return Ok(cached.value);
    }
    var reading := WeatherReading(now);
    redis.Set(cacheKey, reading, WeatherTtl, now);
    r := Ok(reading);
  }

  method GetData(redis: Cache, kind: SourceKind, source: string, now: int, remote: Remote) returns (r: Result<Value>)
    modifies redis
    ensures Step(r, redis.entries) == GetDataStep(old(redis.entries), kind, source, now, remote)
  {
    match kind {
      case Price => r := SyncMarketData(redis, source, now, remote);
      case Iot => r := SyncIoTData(redis, source, now, remote);
      case Weather => r := SyncWeatherData(redis, source, now);
      case UnknownKind(raw) => r := Err(Failure("Unsupported data type: " + raw));
    }
  }
}
