/** `fetch_weather_from_api` (weather/services.py): the branching over the
    configured key, the two HTTP calls and their failures, and the row it
    stores. The HTTP calls are replaced by their outcomes, given as inputs;
    the decision is the pure function FetchPlan, and the method
    FetchWeatherFromApi carries it out against the table. */
module WeatherFetcher {
  import opened Wrappers
  import opened WeatherModels
  import opened ForecastAggregation
  import opened MockWeather

  /** What one `requests.get(...)`, `raise_for_status()` and `.json()` sequence
      can end in: a decoded body, or the exception it raised. `OtherRequestError`
      is any other RequestException, such as TooManyRedirects. */
  datatype Outcome<T> =
    | Ok(body: T)
    | Timeout
    | ConnectionFailure
    | HttpStatus(code: int)
    | InvalidJson
    | OtherRequestError

  /** The decoded current-weather body: `main.temp` (None when `main` or
      `temp` is missing) and the `weather` list (None when the key is missing). */
  datatype CurrentPayload = CurrentPayload(temp: Option<real>, weather: Option<seq<WeatherEntry>>)

  /** The module settings read by the fetcher. */
  datatype Config = Config(apiKey: string, useMockData: bool)

  /** The reasons carried by WeatherAPIException. */
  datatype ApiError =
    | ConnectionError
    | InvalidApiKey
    | LocationNotFound(location: string)
    | RateLimitExceeded
    | HttpError(code: int)
    | InvalidResponseFormat

  /** What the fetcher raises: the key-missing exception, an API exception, or
      any other exception it lets through (an empty `weather` list, a refused
      insert, another request error). */
  datatype FetchError = ApiKeyMissing | ApiFailure(reason: ApiError) | Unexpected

  /** The placeholder key shipped in sample settings. */
  const PlaceholderKey: string := "your_weather_api_key"

  /** `not WEATHER_API_KEY or WEATHER_API_KEY == 'your_weather_api_key'`. */
  predicate KeyMissing(key: string)
  {
    key == "" || key == PlaceholderKey
  }

  /** The decision the fetcher takes: generate mock data, raise, or store a
      live reading. */
  datatype Plan =
    | UseMock
    | Raise(error: FetchError)
    | StoreLive(temperature: real, conditions: string, forecast: seq<DailyForecast>)

  /** Mock data when the setting allows it, otherwise the given error. */
  function MockOr(cfg: Config, e: FetchError): Plan
  {
    if cfg.useMockData then UseMock else Raise(e)
  }

  /** The API error for a status `raise_for_status` refused. */
  function StatusError(code: int, location: string): ApiError
  {
    if code == 401 then InvalidApiKey
    else if code == 404 then LocationNotFound(location)
    else if code == 429 then RateLimitExceeded
    else HttpError(code)
  }

  /** The forecast body the aggregator sees: any failure of the forecast call
      is replaced by `{'list': []}`. */
  function ForecastBody(forecast: Outcome<ForecastPayload>): ForecastPayload
  {
    if forecast.Ok? then forecast.body else Some([])
  }

  /** `current_data.get('weather', [{}])[0]`: None when the list is empty,
      which is the IndexError the outer handler catches. */
  function FirstWeather(p: CurrentPayload): Option<WeatherEntry>
  {
    match p.weather
    case None => Some(WeatherEntry(None, None))
    case Some(ws) => if ws == [] then None else Some(ws[0])
  }

  /** The decision of `fetch_weather_from_api`, given the two call outcomes. */
  function FetchPlan(cfg: Config, location: string, current: Outcome<CurrentPayload>,
                     forecast: Outcome<ForecastPayload>): Plan
  {
    if KeyMissing(cfg.apiKey) then MockOr(cfg, ApiKeyMissing)
    else
      match current
      case Timeout => MockOr(cfg, ApiFailure(ConnectionError))
      case ConnectionFailure => MockOr(cfg, ApiFailure(ConnectionError))
      case HttpStatus(code) => Raise(ApiFailure(StatusError(code, location)))
      case InvalidJson => Raise(ApiFailure(InvalidResponseFormat))
      case OtherRequestError => MockOr(cfg, Unexpected)
      case Ok(p) =>
        match FirstWeather(p)
        case None => MockOr(cfg, Unexpected)
        case Some(w) =>
          StoreLive(p.temp.GetOr(0.0), w.main.GetOr("Unknown"), AggregatePayload(ForecastBody(forecast)))
  }

  /** The outcome of the fetcher and the table after it. A refused live insert
      is an unexpected exception. One instant `now` serves every clock read of
      the call, so the handler's mock insert after it is refused too and the
      exception escapes either way. */
  function FetchSpec(records: seq<WeatherRecord>, cfg: Config, location: string,
                     current: Outcome<CurrentPayload>, forecast: Outcome<ForecastPayload>,
                     d: MockDraws, calendar: int -> string, today: int, now: int): (Result<WeatherRecord, FetchError>, seq<WeatherRecord>)
    requires ValidDraws(d)
  {
    match FetchPlan(cfg, location, current, forecast)
    case Raise(e) => (Failure(e), records)
    case UseMock =>
      var (r, after) := MockInsert(records, location, d, calendar, today, now);
      (if r.Some? then Success(r.value) else Failure(Unexpected), after)
    case StoreLive(t, c, f) =>
      var (r, after) := Insert(records, location, t, c, Encoded(f), now);
      (if r.Some? then Success(r.value) else Failure(Unexpected), after)
  }

  /** `fetch_weather_from_api(location)` at time `now`, with the outcomes of
      its two HTTP calls and the draws of the mock generator as inputs. */
  method FetchWeatherFromApi(store: WeatherStore, cfg: Config, location: string,
                             current: Outcome<CurrentPayload>, forecast: Outcome<ForecastPayload>,
                             d: MockDraws, calendar: int -> string, today: int, now: int)
    returns (r: Result<WeatherRecord, FetchError>)
    requires store.Valid() && ValidDraws(d)
    modifies store
    ensures store.Valid()
    ensures (r, store.records) == FetchSpec(old(store.records), cfg, location, current, forecast, d, calendar, today, now)
  {
    if KeyMissing(cfg.apiKey) {
      if cfg.useMockData {
        var m := CreateMockWeatherData(store, location, d, calendar, today, now);
        return if m.Some? then Success(m.value) else Failure(Unexpected);
      }
      return Failure(ApiKeyMissing);
    }
    var unexpected := false;
    match current {
      case Timeout =>
        if cfg.useMockData {
          var m := CreateMockWeatherData(store, location, d, calendar, today, now);
          return if m.Some? then Success(m.value) else Failure(Unexpected);
        }
        return Failure(ApiFailure(ConnectionError));
      case ConnectionFailure =>
        if cfg.useMockData {
          var m := CreateMockWeatherData(store, location, d, calendar, today, now);
          return if m.Some? then Success(m.value) else Failure(Unexpected);
        }
        return Failure(ApiFailure(ConnectionError));
      case HttpStatus(code) =>
        return Failure(ApiFailure(StatusError(code, location)));
      case InvalidJson =>
        return Failure(ApiFailure(InvalidResponseFormat));
      case OtherRequestError =>
        unexpected := true;
      case Ok(p) =>
        var w := FirstWeather(p);
        if w.None? {
          unexpected := true;
        } else {
          var temperature := p.temp.GetOr(0.0);
          var conditions := w.value.main.GetOr("Unknown");
          var days := ProcessForecastData(ForecastBody(forecast));
          var created := store.Create(location, temperature, conditions, Encoded(days), now);
          if created.Some? {
            return Success(created.value);
          }
          unexpected := true;
        }
    }
    // The outer `except Exception` handler.
    if cfg.useMockData {
      var m := CreateMockWeatherData(store, location, d, calendar, today, now);
      return if m.Some? then Success(m.value) else Failure(Unexpected);
    }
    return Failure(Unexpected);
  }

  /** A missing or placeholder key never reaches the API: mock data when
      allowed, otherwise the key-missing exception. */
  lemma MissingKeyPlan(cfg: Config, location: string, current: Outcome<CurrentPayload>, forecast: Outcome<ForecastPayload>)
    requires KeyMissing(cfg.apiKey)
    ensures FetchPlan(cfg, location, current, forecast) == (if cfg.useMockData then UseMock else Raise(ApiKeyMissing))
  {
  }

  /** A timeout or connection failure falls back to mock data when allowed,
      otherwise raises a connection error. */
  lemma UnreachablePlan(cfg: Config, location: string, current: Outcome<CurrentPayload>, forecast: Outcome<ForecastPayload>)
    requires !KeyMissing(cfg.apiKey) && (current.Timeout? || current.ConnectionFailure?)
    ensures FetchPlan(cfg, location, current, forecast) ==
      (if cfg.useMockData then UseMock else Raise(ApiFailure(ConnectionError)))
  {
  }

  /** An HTTP error status or an undecodable body always raises, whatever the
      mock setting: 401, 404 and 429 have their own reasons. */
  lemma RefusedRequestPlan(cfg: Config, location: string, current: Outcome<CurrentPayload>, forecast: Outcome<ForecastPayload>)
    requires !KeyMissing(cfg.apiKey) && (current.HttpStatus? || current.InvalidJson?)
    ensures FetchPlan(cfg, location, current, forecast) == FetchPlan(cfg.(useMockData := !cfg.useMockData), location, current, forecast)
    ensures FetchPlan(cfg, location, current, forecast).Raise?
    ensures current.InvalidJson? ==> FetchPlan(cfg, location, current, forecast) == Raise(ApiFailure(InvalidResponseFormat))
    ensures current.HttpStatus? && current.code == 401 ==> FetchPlan(cfg, location, current, forecast) == Raise(ApiFailure(InvalidApiKey))
    ensures current.HttpStatus? && current.code == 404 ==> FetchPlan(cfg, location, current, forecast) == Raise(ApiFailure(LocationNotFound(location)))
    ensures current.HttpStatus? && current.code == 429 ==> FetchPlan(cfg, location, current, forecast) == Raise(ApiFailure(RateLimitExceeded))
  {
  }

  /** Mock data is generated exactly when the setting allows it and the key is
      missing, the API is unreachable, or the exchange failed in a way the
      specific handlers do not cover. */
  lemma MockPlanIff(cfg: Config, location: string, current: Outcome<CurrentPayload>, forecast: Outcome<ForecastPayload>)
    ensures FetchPlan(cfg, location, current, forecast).UseMock? <==>
      cfg.useMockData &&
      (KeyMissing(cfg.apiKey) || current.Timeout? || current.ConnectionFailure? || current.OtherRequestError? ||
       (current.Ok? && current.body.weather == Some([])))
  {
  }

  /** With the setting off, exactly the same inputs that would have given mock
      data raise instead. */
  lemma NoMockWhenDisabled(cfg: Config, location: string, current: Outcome<CurrentPayload>, forecast: Outcome<ForecastPayload>)
    requires !cfg.useMockData
    ensures !FetchPlan(cfg, location, current, forecast).UseMock?
    ensures FetchPlan(cfg.(useMockData := true), location, current, forecast).UseMock? ==>
      FetchPlan(cfg, location, current, forecast).Raise?
  {
  }

  /** A failed forecast call does not stop the live reading from being stored;
      it is stored with no forecast days. */
  lemma ForecastFailureTolerated(cfg: Config, location: string, p: CurrentPayload, forecast: Outcome<ForecastPayload>)
    requires !KeyMissing(cfg.apiKey) && p.weather != Some([]) && !forecast.Ok?
    ensures FetchPlan(cfg, location, Ok(p), forecast).StoreLive?
    ensures FetchPlan(cfg, location, Ok(p), forecast).forecast == []
  {
  }

  /** A body without `main.temp` or without `weather` is still stored, at 0.0
      degrees and with condition "Unknown", whatever the mock setting. */
  lemma CurrentDefaults(cfg: Config, location: string, forecast: Outcome<ForecastPayload>)
    requires !KeyMissing(cfg.apiKey)
    ensures var plan := FetchPlan(cfg, location, Ok(CurrentPayload(None, None)), forecast);
      plan.StoreLive? && plan.temperature == 0.0 && plan.conditions == "Unknown"
  {
  }

  /** A live reading stores the body's temperature and the first entry's
      `main`, with the aggregate of the forecast body. */
  lemma LivePlan(cfg: Config, location: string, temp: real, w: WeatherEntry, rest: seq<WeatherEntry>,
                 main: string, items: seq<RawSample>)
    requires !KeyMissing(cfg.apiKey) && w.main == Some(main)
    ensures FetchPlan(cfg, location, Ok(CurrentPayload(Some(temp), Some([w] + rest))), Ok(Some(items))) ==
      StoreLive(temp, main, AggregatePayload(Some(items)))
  {
  }

  /** The fetcher either adds exactly the record it returns, stamped `now` for
      the requested location, or leaves the table as it was. */
  lemma FetchSpecEffect(records: seq<WeatherRecord>, cfg: Config, location: string,
                        current: Outcome<CurrentPayload>, forecast: Outcome<ForecastPayload>,
                        d: MockDraws, calendar: int -> string, today: int, now: int)
    requires ValidDraws(d)
    ensures var (r, after) := FetchSpec(records, cfg, location, current, forecast, d, calendar, today, now);
      (r.Success? ==>
        (after == records + [r.value] && r.value.location == location && r.value.retrievedAt == now &&
         !Taken(records, location, now))) &&
      (r.Failure? ==> after == records)
  {
  }

  /** Each outcome's error: a plan to raise raises that error, and a refused
      insert (some row already stamped `now` for this location) is unexpected. */
  lemma FetchSpecErrors(records: seq<WeatherRecord>, cfg: Config, location: string,
                        current: Outcome<CurrentPayload>, forecast: Outcome<ForecastPayload>,
                        d: MockDraws, calendar: int -> string, today: int, now: int)
    requires ValidDraws(d)
    ensures var plan := FetchPlan(cfg, location, current, forecast);
      var r := FetchSpec(records, cfg, location, current, forecast, d, calendar, today, now).0;
      (plan.Raise? ==> r == Failure(plan.error)) &&
      (!plan.Raise? ==> (r.Failure? <==> Taken(records, location, now))) &&
      (r.Failure? && !plan.Raise? ==> r.error == Unexpected)
  {
  }
}
