/** The read side of the weather service (weather/services.py): the cache
    lookup and `get_weather_for_location`, `get_forecast_from_weather_data`,
    and `refresh_weather_data`, both as written and with failures skipped. */
module WeatherResolver {
  import opened Wrappers
  import opened Sequences
  import opened WeatherModels
  import opened ForecastAggregation
  import opened MockWeather
  import opened WeatherFetcher

  /** `CACHE_DURATION`, in hours. */
  const CacheHours: int := 3

  /** The cache window in seconds. */
  const CacheSeconds: int := CacheHours * 3600

  /** A row for `location` retrieved no earlier than `CACHE_DURATION` before `now`. */
  predicate Fresh(r: WeatherRecord, location: string, now: int)
  {
    r.location == location && r.retrievedAt >= now - CacheSeconds
  }

  /** The cache query: the fresh rows for `location`, newest first, and the
      first of them (`.first()` is None on an empty result). */
  function LatestFresh(records: seq<WeatherRecord>, location: string, now: int): Option<WeatherRecord>
  {
    var candidates := Filter(records, r => Fresh(r, location, now));
    if candidates == [] then None else Some(NewestFirst(candidates)[0])
  }

  /** The cache query finds nothing exactly when no row is fresh; otherwise it
      finds a fresh row of the table that no other fresh row is newer than. */
  lemma LatestFreshSpec(records: seq<WeatherRecord>, location: string, now: int)
    ensures LatestFresh(records, location, now).None? <==>
      forall i :: 0 <= i < |records| ==> !Fresh(records[i], location, now)
    ensures LatestFresh(records, location, now).Some? ==>
      var r := LatestFresh(records, location, now).value;
      r in records && Fresh(r, location, now) &&
      forall i :: 0 <= i < |records| && Fresh(records[i], location, now) ==> records[i].retrievedAt <= r.retrievedAt
  {
    var p := r => Fresh(r, location, now);
    var candidates := Filter(records, p);
    if candidates != [] {
      var sorted := NewestFirst(candidates);
      NewestFirstSpec(candidates);
      assert candidates[0] in multiset(sorted);
      var r := sorted[0];
      assert r in multiset(candidates);
      forall i | 0 <= i < |records| && Fresh(records[i], location, now)
        ensures records[i].retrievedAt <= r.retrievedAt
      {
        assert records[i] in candidates;
        assert records[i] in multiset(sorted);
        var k :| 0 <= k < |sorted| && sorted[k] == records[i];
      }
    }
  }

  /** Under the uniqueness constraint the cached row is the only fresh row
      with its retrieval time: the newest fresh row is unambiguous. */
  lemma LatestFreshUnique(records: seq<WeatherRecord>, location: string, now: int, i: nat)
    requires WellKeyed(records)
    requires LatestFresh(records, location, now).Some?
    requires i < |records| && Fresh(records[i], location, now)
    requires records[i].retrievedAt == LatestFresh(records, location, now).value.retrievedAt
    ensures records[i] == LatestFresh(records, location, now).value
  {
    LatestFreshSpec(records, location, now);
    var r := LatestFresh(records, location, now).value;
    var j :| 0 <= j < |records| && records[j] == r;
  }

  /** A row exactly `CACHE_DURATION` old is still served from the cache; one
      a second older is not. */
  lemma CacheBoundary(r: WeatherRecord, location: string, now: int)
    requires r.location == location
    ensures r.retrievedAt == now - CacheSeconds ==> Fresh(r, location, now)
    ensures r.retrievedAt == now - CacheSeconds - 1 ==> !Fresh(r, location, now)
  {
  }

  /** `get_weather_for_location`: None for an empty location, the cached row
      when there is one, otherwise whatever the fetcher returns, with every
      exception it raises turned into None. */
  function ResolveSpec(records: seq<WeatherRecord>, cfg: Config, location: string,
                       current: Outcome<CurrentPayload>, forecast: Outcome<ForecastPayload>,
                       d: MockDraws, calendar: int -> string, today: int, now: int): (Option<WeatherRecord>, seq<WeatherRecord>)
    requires ValidDraws(d)
  {
    if location == "" then (None, records)
    else
      match LatestFresh(records, location, now)
      case Some(r) => (Some(r), records)
      case None =>
        var (res, after) := FetchSpec(records, cfg, location, current, forecast, d, calendar, today, now);
        (res.ToOption(), after)
  }

  /** `get_weather_for_location(location)` at time `now`; the outcomes the
      fetcher would see are inputs. */
  method GetWeatherForLocation(store: WeatherStore, cfg: Config, location: string,
                               current: Outcome<CurrentPayload>, forecast: Outcome<ForecastPayload>,
                               d: MockDraws, calendar: int -> string, today: int, now: int)
    returns (r: Option<WeatherRecord>)
    requires store.Valid() && ValidDraws(d)
    modifies store
    ensures store.Valid()
    ensures (r, store.records) == ResolveSpec(old(store.records), cfg, location, current, forecast, d, calendar, today, now)
  {
    if location == "" {
      return None;
    }
    var cached := LatestFresh(store.records, location, now);
    if cached.Some? {
      return cached;
    }
    var fetched := FetchWeatherFromApi(store, cfg, location, current, forecast, d, calendar, today, now);
    r := fetched.ToOption();
  }

  /** A cache hit returns the newest fresh row and does not touch the table
      or the API. */
  lemma ResolveCacheHit(records: seq<WeatherRecord>, cfg: Config, location: string,
                        current: Outcome<CurrentPayload>, forecast: Outcome<ForecastPayload>,
                        d: MockDraws, calendar: int -> string, today: int, now: int, i: nat)
    requires ValidDraws(d)
    requires location != "" && i < |records| && Fresh(records[i], location, now)
    ensures var (r, after) := ResolveSpec(records, cfg, location, current, forecast, d, calendar, today, now);
      after == records && r.Some? && r.value in records && Fresh(r.value, location, now) &&
      records[i].retrievedAt <= r.value.retrievedAt
  {
    LatestFreshSpec(records, location, now);
  }

  /** Without a fresh row the result is the fetcher's, and None exactly when
      the fetcher raised. */
  lemma ResolveMiss(records: seq<WeatherRecord>, cfg: Config, location: string,
                    current: Outcome<CurrentPayload>, forecast: Outcome<ForecastPayload>,
                    d: MockDraws, calendar: int -> string, today: int, now: int)
    requires ValidDraws(d)
    requires location != "" && forall i :: 0 <= i < |records| ==> !Fresh(records[i], location, now)
    ensures var (r, after) := ResolveSpec(records, cfg, location, current, forecast, d, calendar, today, now);
      var (fetched, fetchedAfter) := FetchSpec(records, cfg, location, current, forecast, d, calendar, today, now);
      after == fetchedAfter && (r.None? <==> fetched.Failure?) && (r.Some? ==> r.value == fetched.value)
  {
    LatestFreshSpec(records, location, now);
  }

  /** Whatever is returned is weather for the requested place no older than
      the cache window, and the table only ever grows by that one fetched row. */
  lemma ResolveIsFresh(records: seq<WeatherRecord>, cfg: Config, location: string,
                       current: Outcome<CurrentPayload>, forecast: Outcome<ForecastPayload>,
                       d: MockDraws, calendar: int -> string, today: int, now: int)
    requires ValidDraws(d)
    ensures var (r, after) := ResolveSpec(records, cfg, location, current, forecast, d, calendar, today, now);
      (r.Some? ==> Fresh(r.value, location, now) && r.value in after) &&
      (after == records || (r.Some? && after == records + [r.value])) &&
      (location == "" ==> r.None? && after == records)
  {
    LatestFreshSpec(records, location, now);
    FetchSpecEffect(records, cfg, location, current, forecast, d, calendar, today, now);
  }

  /** `get_forecast_from_weather_data`: no row or an empty column gives no
      days, and so does text that is not JSON; otherwise the decoded list. */
  function ExtractForecast(r: Option<WeatherRecord>): (days: seq<DailyForecast>)
    ensures days != [] ==> r.Some? && r.value.forecast == Encoded(days)
  {
    match r
    case None => []
    case Some(w) =>
      match w.forecast
      case EmptyText => []
      case NotJson => []
      case Encoded(days) => days
  }

  /** Decoding gives back the days the fetcher or the generator stored. */
  lemma ExtractStoredForecast(w: WeatherRecord, days: seq<DailyForecast>)
    requires w.forecast == Encoded(days)
    ensures ExtractForecast(Some(w)) == days
  {
  }

  /** The row a live fetch stores carries the aggregate of the forecast
      body, and reading it back gives that aggregate. */
  lemma LiveForecastReadBack(records: seq<WeatherRecord>, cfg: Config, location: string,
                             current: Outcome<CurrentPayload>, forecast: Outcome<ForecastPayload>,
                             d: MockDraws, calendar: int -> string, today: int, now: int)
    requires ValidDraws(d)
    requires FetchPlan(cfg, location, current, forecast).StoreLive?
    ensures var r := FetchSpec(records, cfg, location, current, forecast, d, calendar, today, now).0;
      r.Success? ==> ExtractForecast(Some(r.value)) == AggregatePayload(ForecastBody(forecast))
  {
  }

  /** The location of each row, in the rows' order. */
  function RowLocations(records: seq<WeatherRecord>): (ls: seq<string>)
    ensures |ls| == |records| && forall i :: 0 <= i < |records| ==> ls[i] == records[i].location
  {
    seq(|records|, i requires 0 <= i < |records| => records[i].location)
  }

  /** `values_list('location', flat=True).distinct()`. The model's default
      ordering `-retrieved_at` takes part in the SELECT DISTINCT, and no two
      rows share (location, retrieved_at), so the query gives the location of
      every row, newest row first. */
  function StoredLocations(records: seq<WeatherRecord>): seq<string>
  {
    RowLocations(NewestFirst(records))
  }

  /** The query yields one location per row: as many entries as rows, each
      the location of some row, and every row's location among them. */
  lemma StoredLocationsSpec(records: seq<WeatherRecord>)
    ensures |StoredLocations(records)| == |records|
    ensures forall l :: l in StoredLocations(records) <==> l in RowLocations(records)
  {
    NewestFirstSpec(records);
    var sorted := NewestFirst(records);
    assert |multiset(sorted)| == |multiset(records)|;
    forall l | l in StoredLocations(records)
      ensures l in RowLocations(records)
    {
      var k :| 0 <= k < |sorted| && sorted[k].location == l;
      assert sorted[k] in multiset(records);
      var i :| 0 <= i < |records| && records[i] == sorted[k];
    }
    forall l | l in RowLocations(records)
      ensures l in StoredLocations(records)
    {
      var i :| 0 <= i < |records| && records[i].location == l;
      assert records[i] in multiset(sorted);
      var k :| 0 <= k < |sorted| && sorted[k] == records[i];
    }
  }

  /** Each stored location once, in the order the query first gives it: the
      "distinct locations" the refresh means to visit. */
  function DistinctLocations(records: seq<WeatherRecord>): seq<string>
  {
    Distinct(StoredLocations(records))
  }

  /** Two or more rows for one location: the query repeats it once per row,
      while the distinct locations hold it once. */
  lemma RepeatedLocation(records: seq<WeatherRecord>, l: string)
    requires |records| >= 2
    requires forall i :: 0 <= i < |records| ==> records[i].location == l
    ensures StoredLocations(records) == seq(|records|, _ => l)
    ensures DistinctLocations(records) == [l]
  {
    StoredLocationsSpec(records);
    var ls := StoredLocations(records);
    forall k | 0 <= k < |ls|
      ensures ls[k] == l
    {
      assert ls[k] in RowLocations(records);
    }
    DistinctOfConstant(ls, l);
  }

  /** Everything one fetch needs from the outside world. */
  datatype FetchInputs = FetchInputs(current: Outcome<CurrentPayload>, forecast: Outcome<ForecastPayload>, draws: MockDraws)

  /** The outside world per location, with draws the generator can produce. */
  ghost predicate ValidInputs(world: string -> FetchInputs)
  {
    forall l :: ValidDraws(world(l).draws)
  }

  /** One fetch inside a refresh. Each fetch reads the clock again: the
      `k`-th fetch of a refresh stores its row at `clock(k)`. */
  function FetchAt(records: seq<WeatherRecord>, cfg: Config, location: string, world: string -> FetchInputs,
                   calendar: int -> string, today: int, now: int): (Result<WeatherRecord, FetchError>, seq<WeatherRecord>)
    requires ValidInputs(world)
  {
    var w := world(location);
    FetchSpec(records, cfg, location, w.current, w.forecast, w.draws, calendar, today, now)
  }

  /** The refresh loop as written, from `locations` on, with `count` successes
      so far and `k` fetches made: the first exception the fetcher raises
      escapes and ends the refresh; a returned row is truthy and counts. */
  function RefreshFrom(records: seq<WeatherRecord>, locations: seq<string>, count: nat, cfg: Config,
                       world: string -> FetchInputs, calendar: int -> string, today: int,
                       clock: nat -> int, k: nat): (Result<nat, FetchError>, seq<WeatherRecord>)
    requires ValidInputs(world)
    decreases |locations|
  {
    if locations == [] then (Success(count), records)
    else
      var (res, after) := FetchAt(records, cfg, locations[0], world, calendar, today, clock(k));
      if res.Failure? then (Failure(res.error), after)
      else RefreshFrom(after, locations[1..], count + 1, cfg, world, calendar, today, clock, k + 1)
  }

  /** `refresh_weather_data()` as written. */
  method RefreshWeatherData(store: WeatherStore, cfg: Config, world: string -> FetchInputs,
                            calendar: int -> string, today: int, clock: nat -> int) returns (r: Result<nat, FetchError>)
    requires store.Valid() && ValidInputs(world)
    modifies store
    ensures store.Valid()
    ensures (r, store.records) == RefreshFrom(old(store.records), StoredLocations(old(store.records)), 0, cfg, world, calendar, today, clock, 0)
  {
    var locations := StoredLocations(store.records);
    var successCount := 0;
    var i := 0;
    while i < |locations|
      invariant 0 <= i <= |locations| && successCount == i
      invariant store.Valid()
      invariant RefreshFrom(store.records, locations[i..], successCount, cfg, world, calendar, today, clock, i) ==
        RefreshFrom(old(store.records), locations, 0, cfg, world, calendar, today, clock, 0)
    {
      var w := world(locations[i]);
      var fetched := FetchWeatherFromApi(store, cfg, locations[i], w.current, w.forecast, w.draws, calendar, today, clock(i));
      if fetched.Failure? {
        return Failure(fetched.error);
      }
      successCount := successCount + 1;
      i := i + 1;
    }
    return Success(successCount);
  }

  /** As written, a refresh that returns at all reports every location as
      refreshed: the count never differs from the number of locations. */
  lemma {:induction false} RefreshCountsEveryLocation(records: seq<WeatherRecord>, locations: seq<string>, count: nat,
                                                      cfg: Config, world: string -> FetchInputs,
                                                      calendar: int -> string, today: int, clock: nat -> int, k: nat)
    requires ValidInputs(world)
    ensures var (r, after) := RefreshFrom(records, locations, count, cfg, world, calendar, today, clock, k);
      r.Success? ==> r.value == count + |locations| && |after| == |records| + |locations|
    decreases |locations|
  {
    if locations != [] {
      var w := world(locations[0]);
      var (res, after) := FetchAt(records, cfg, locations[0], world, calendar, today, clock(k));
      FetchSpecEffect(records, cfg, locations[0], w.current, w.forecast, w.draws, calendar, today, clock(k));
      if res.Success? {
        RefreshCountsEveryLocation(after, locations[1..], count + 1, cfg, world, calendar, today, clock, k + 1);
      }
    }
  }

  /** As written, a refresh that returns has fetched once per row, not once
      per location: it reports as many successes as there were rows and has
      doubled the table. */
  lemma RefreshDoublesTable(records: seq<WeatherRecord>, cfg: Config, world: string -> FetchInputs,
                            calendar: int -> string, today: int, clock: nat -> int)
    requires ValidInputs(world)
    ensures var (r, after) := RefreshFrom(records, StoredLocations(records), 0, cfg, world, calendar, today, clock, 0);
      r.Success? ==> r.value == |records| && |after| == 2 * |records|
  {
    StoredLocationsSpec(records);
    RefreshCountsEveryLocation(records, StoredLocations(records), 0, cfg, world, calendar, today, clock, 0);
  }

  /** The refresh loop over `locations` with each failed fetch skipped, as
      its "number of locations successfully refreshed" describes. */
  function RefreshSkippingFrom(records: seq<WeatherRecord>, locations: seq<string>, count: nat, cfg: Config,
                               world: string -> FetchInputs, calendar: int -> string, today: int,
                               clock: nat -> int, k: nat): (nat, seq<WeatherRecord>)
    requires ValidInputs(world)
    decreases |locations|
  {
    if locations == [] then (count, records)
    else
      var (res, after) := FetchAt(records, cfg, locations[0], world, calendar, today, clock(k));
      RefreshSkippingFrom(after, locations[1..], if res.Success? then count + 1 else count, cfg, world, calendar, today, clock, k + 1)
  }

  /** The corrected refresh: every location is tried, and the count is the
      number of rows the refresh added, at most one per location visited. */
  lemma {:induction false} RefreshSkippingCounts(records: seq<WeatherRecord>, locations: seq<string>, count: nat,
                                                 cfg: Config, world: string -> FetchInputs,
                                                 calendar: int -> string, today: int, clock: nat -> int, k: nat)
    requires ValidInputs(world)
    ensures var (n, after) := RefreshSkippingFrom(records, locations, count, cfg, world, calendar, today, clock, k);
      count <= n <= count + |locations| &&
      |after| == |records| + (n - count) && after[..|records|] == records
    decreases |locations|
  {
    if locations != [] {
      var w := world(locations[0]);
      var (res, after) := FetchAt(records, cfg, locations[0], world, calendar, today, clock(k));
      FetchSpecEffect(records, cfg, locations[0], w.current, w.forecast, w.draws, calendar, today, clock(k));
      var next := if res.Success? then count + 1 else count;
      RefreshSkippingCounts(after, locations[1..], next, cfg, world, calendar, today, clock, k + 1);
      var (n, final) := RefreshSkippingFrom(after, locations[1..], next, cfg, world, calendar, today, clock, k + 1);
      assert final[..|after|] == after;
      assert after[..|records|] == records;
      assert final[..|records|] == final[..|after|][..|records|];
    }
  }

  /** The rows a skipping refresh adds are for locations it was given, and
      when no location is given twice no two added rows share a location. */
  lemma {:induction false} RefreshSkippingRows(records: seq<WeatherRecord>, locations: seq<string>, count: nat,
                                               cfg: Config, world: string -> FetchInputs,
                                               calendar: int -> string, today: int, clock: nat -> int, k: nat)
    requires ValidInputs(world)
    ensures var (n, after) := RefreshSkippingFrom(records, locations, count, cfg, world, calendar, today, clock, k);
      (forall i :: |records| <= i < |after| ==> after[i].location in locations) &&
      (NoDuplicates(locations) ==>
        forall i, j :: |records| <= i < j < |after| ==> after[i].location != after[j].location)
    decreases |locations|
  {
    if locations != [] {
      var w := world(locations[0]);
      var (res, after) := FetchAt(records, cfg, locations[0], world, calendar, today, clock(k));
      FetchSpecEffect(records, cfg, locations[0], w.current, w.forecast, w.draws, calendar, today, clock(k));
      var next := if res.Success? then count + 1 else count;
      RefreshSkippingRows(after, locations[1..], next, cfg, world, calendar, today, clock, k + 1);
      RefreshSkippingCounts(after, locations[1..], next, cfg, world, calendar, today, clock, k + 1);
      var (n, final) := RefreshSkippingFrom(after, locations[1..], next, cfg, world, calendar, today, clock, k + 1);
      assert final[..|after|] == after;
      forall i | |records| <= i < |final|
        ensures final[i].location in locations
      {
        if i < |after| {
          assert final[i] == after[i] == res.value;
        } else {
          assert final[i].location in locations[1..];
        }
      }
      if NoDuplicates(locations) {
        assert NoDuplicates(locations[1..]);
        forall i, j | |records| <= i < j < |final|
          ensures final[i].location != final[j].location
        {
          if i < |after| {
            assert final[i] == after[i] == res.value;
            assert final[j].location in locations[1..];
            assert locations[0] !in locations[1..];
          }
        }
      }
    }
  }

  /** The corrected refresh over the distinct locations adds at most one row
      per stored location, and its count is the number of rows added. */
  lemma RefreshOncePerLocation(records: seq<WeatherRecord>, cfg: Config, world: string -> FetchInputs,
                               calendar: int -> string, today: int, clock: nat -> int)
    requires ValidInputs(world)
    ensures NoDuplicates(DistinctLocations(records))
    ensures forall l :: l in DistinctLocations(records) <==> l in RowLocations(records)
    ensures var (n, after) := RefreshSkippingFrom(records, DistinctLocations(records), 0, cfg, world, calendar, today, clock, 0);
      n <= |DistinctLocations(records)| && |after| == |records| + n && after[..|records|] == records &&
      (forall i :: |records| <= i < |after| ==> after[i].location in RowLocations(records)) &&
      (forall i, j :: |records| <= i < j < |after| ==> after[i].location != after[j].location)
  {
    StoredLocationsSpec(records);
    DistinctContents(StoredLocations(records));
    RefreshSkippingCounts(records, DistinctLocations(records), 0, cfg, world, calendar, today, clock, 0);
    RefreshSkippingRows(records, DistinctLocations(records), 0, cfg, world, calendar, today, clock, 0);
  }

  /** The corrected refresh agrees with the one as written on the same
      locations whenever no fetch fails. */
  lemma {:induction false} RefreshSkippingAgrees(records: seq<WeatherRecord>, locations: seq<string>, count: nat,
                                                 cfg: Config, world: string -> FetchInputs,
                                                 calendar: int -> string, today: int, clock: nat -> int, k: nat)
    requires ValidInputs(world)
    ensures var (r, after) := RefreshFrom(records, locations, count, cfg, world, calendar, today, clock, k);
      r.Success? ==> RefreshSkippingFrom(records, locations, count, cfg, world, calendar, today, clock, k) == (r.value, after)
    decreases |locations|
  {
    if locations != [] {
      var (res, after) := FetchAt(records, cfg, locations[0], world, calendar, today, clock(k));
      if res.Success? {
        RefreshSkippingAgrees(after, locations[1..], count + 1, cfg, world, calendar, today, clock, k + 1);
      }
    }
  }

  /** `refresh_weather_data()` visiting each distinct location once and
      skipping failed fetches. */
  method RefreshWeatherDataSkippingFailures(store: WeatherStore, cfg: Config, world: string -> FetchInputs,
                                            calendar: int -> string, today: int, clock: nat -> int) returns (n: nat)
    requires store.Valid() && ValidInputs(world)
    modifies store
    ensures store.Valid()
    ensures (n, store.records) == RefreshSkippingFrom(old(store.records), DistinctLocations(old(store.records)), 0, cfg, world, calendar, today, clock, 0)
  {
    var locations := DistinctLocations(store.records);
    n := 0;
    var i := 0;
    while i < |locations|
      invariant 0 <= i <= |locations|
      invariant store.Valid()
      invariant RefreshSkippingFrom(store.records, locations[i..], n, cfg, world, calendar, today, clock, i) ==
        RefreshSkippingFrom(old(store.records), locations, 0, cfg, world, calendar, today, clock, 0)
    {
      var w := world(locations[i]);
      var fetched := FetchWeatherFromApi(store, cfg, locations[i], w.current, w.forecast, w.draws, calendar, today, clock(i));
      if fetched.Success? {
        n := n + 1;
      }
      i := i + 1;
    }
  }

  /** The discrepancy on two locations: when the first answers 404, the
      refresh as written raises and never fetches the second, while the
      corrected refresh reports one success and stores the second's row. */
  lemma RefreshAbortExample(records: seq<WeatherRecord>, a: string, b: string, cfg: Config,
                            world: string -> FetchInputs, calendar: int -> string, today: int, clock: nat -> int, temp: real)
    requires ValidInputs(world) && !KeyMissing(cfg.apiKey)
    requires world(a).current == HttpStatus(404)
    requires world(b).current == Ok(CurrentPayload(Some(temp), None))
    requires !Taken(records, b, clock(1))
    ensures RefreshFrom(records, [a, b], 0, cfg, world, calendar, today, clock, 0) ==
      (Failure(ApiFailure(LocationNotFound(a))), records)
    ensures var (n, after) := RefreshSkippingFrom(records, [a, b], 0, cfg, world, calendar, today, clock, 0);
      n == 1 && after == records + [WeatherRecord(|records|, b, temp, "Unknown", Encoded(AggregatePayload(ForecastBody(world(b).forecast))), clock(1))]
  {
    assert [a, b][1..] == [b];
    assert [b][1..] == [];
    var wb := world(b);
    var stored := WeatherRecord(|records|, b, temp, "Unknown", Encoded(AggregatePayload(ForecastBody(wb.forecast))), clock(1));
    assert FetchPlan(cfg, b, wb.current, wb.forecast) == StoreLive(temp, "Unknown", AggregatePayload(ForecastBody(wb.forecast)));
    assert FetchAt(records, cfg, b, world, calendar, today, clock(1)) == (Success(stored), records + [stored]);
    assert FetchAt(records, cfg, a, world, calendar, today, clock(0)) == (Failure(ApiFailure(LocationNotFound(a))), records);
    assert RefreshSkippingFrom(records + [stored], [], 1, cfg, world, calendar, today, clock, 2) == (1, records + [stored]);
    assert RefreshSkippingFrom(records, [b], 0, cfg, world, calendar, today, clock, 1) == (1, records + [stored]);
  }
}
