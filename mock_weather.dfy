/** `create_mock_weather_data` (weather/services.py): a made-up current
    reading and a five-day forecast, stored like a fetched one. The random
    choices are given as draws, and the date of "today + i days" is given by a
    calendar function; Python's `round(x, 1)` is not modelled. */
module MockWeather {
  import opened Wrappers
  import opened Text
  import opened WeatherModels

  /** The fixed set of conditions the generator chooses from. */
  const MockConditions: seq<string> := ["Clear", "Clouds", "Rain", "Sunny", "Partly Cloudy"]

  /** Days of mock forecast. */
  const ForecastDays: nat := 5

  /** The random numbers drawn for one forecast day: the variation from
      `uniform(-5.0, 5.0)` and the position picked by `choice`. */
  datatype DayDraw = DayDraw(variation: real, conditionIndex: nat)

  /** All random numbers one call draws: the current condition and the
      temperature from `uniform(10.0, 30.0)`, then one draw per day. */
  datatype MockDraws = MockDraws(conditionIndex: nat, temperature: real, days: seq<DayDraw>)

  /** What `random.choice` and `random.uniform` can return. */
  predicate ValidDraws(d: MockDraws)
  {
    d.conditionIndex < |MockConditions| &&
    10.0 <= d.temperature <= 30.0 &&
    |d.days| == ForecastDays &&
    forall i :: 0 <= i < |d.days| ==>
      d.days[i].conditionIndex < |MockConditions| && -5.0 <= d.days[i].variation <= 5.0
  }

  /** Forecast day `i`: the date `today + i`, the current temperature plus the
      day's variation, and the drawn condition with its lower-cased form as description. */
  function MockDay(d: MockDraws, calendar: int -> string, today: int, i: nat): DailyForecast
    requires ValidDraws(d) && i < ForecastDays
  {
    var c := MockConditions[d.days[i].conditionIndex];
    DailyForecast(calendar(today + i), d.temperature + d.days[i].variation, c, Lower(c))
  }

  /** The whole mock forecast. */
  function MockForecastDays(d: MockDraws, calendar: int -> string, today: int): seq<DailyForecast>
    requires ValidDraws(d)
  {
    seq(ForecastDays, i requires 0 <= i < ForecastDays => MockDay(d, calendar, today, i))
  }

  /** The `for i in range(5)` loop that appends one day at a time. */
  method BuildMockForecast(d: MockDraws, calendar: int -> string, today: int) returns (forecast: seq<DailyForecast>)
    requires ValidDraws(d)
    ensures forecast == MockForecastDays(d, calendar, today)
  {
    forecast := [];
    var i := 0;
    while i < ForecastDays
      invariant 0 <= i <= ForecastDays
      invariant forecast == MockForecastDays(d, calendar, today)[..i]
    {
      var draw := d.days[i];
      var condition := MockConditions[draw.conditionIndex];
      forecast := forecast + [DailyForecast(calendar(today + i), d.temperature + draw.variation, condition, Lower(condition))];
      i := i + 1;
    }
  }

  /** The shape of every mock forecast: five consecutive dates, conditions
      from the fixed set, description the lower-cased condition, and each
      temperature within 5 degrees of the current one. */
  lemma MockForecastShape(d: MockDraws, calendar: int -> string, today: int)
    requires ValidDraws(d)
    ensures |MockForecastDays(d, calendar, today)| == ForecastDays
    ensures forall i :: 0 <= i < ForecastDays ==>
      var f := MockForecastDays(d, calendar, today)[i];
      f.date == calendar(today + i) &&
      f.condition in MockConditions &&
      f.description == Lower(f.condition) &&
      d.temperature - 5.0 <= f.temperature <= d.temperature + 5.0
  {
  }

  /** The current reading: the drawn temperature and condition. */
  function MockConditionOf(d: MockDraws): string
    requires ValidDraws(d)
  {
    MockConditions[d.conditionIndex]
  }

  /** The record the generator asks the table to create, with the table
      after the attempt: the drawn reading and the encoded mock forecast. */
  function MockInsert(records: seq<WeatherRecord>, location: string, d: MockDraws,
                      calendar: int -> string, today: int, now: int): (Option<WeatherRecord>, seq<WeatherRecord>)
    requires ValidDraws(d)
  {
    Insert(records, location, d.temperature, MockConditionOf(d), Encoded(MockForecastDays(d, calendar, today)), now)
  }

  /** A mock record reports a condition from the fixed set at 10 to 30
      degrees, carries a five-day forecast, and is the one record appended. */
  lemma MockInsertSpec(records: seq<WeatherRecord>, location: string, d: MockDraws,
                       calendar: int -> string, today: int, now: int)
    requires ValidDraws(d)
    ensures var (r, after) := MockInsert(records, location, d, calendar, today, now);
      (r.None? <==> Taken(records, location, now)) &&
      (r.None? ==> after == records) &&
      (r.Some? ==>
        (after == records + [r.value] &&
         r.value.location == location && r.value.retrievedAt == now &&
         r.value.conditions in MockConditions &&
         10.0 <= r.value.temperature <= 30.0 &&
         r.value.forecast.Encoded? && |r.value.forecast.days| == ForecastDays))
  {
  }

  /** `create_mock_weather_data(location)` at time `now`. */
  method CreateMockWeatherData(store: WeatherStore, location: string, d: MockDraws,
                               calendar: int -> string, today: int, now: int) returns (r: Option<WeatherRecord>)
    requires store.Valid() && ValidDraws(d)
    modifies store
    ensures store.Valid()
    ensures (r, store.records) == MockInsert(old(store.records), location, d, calendar, today, now)
  {
    var condition := MockConditions[d.conditionIndex];
    var forecast := BuildMockForecast(d, calendar, today);
    r := store.Create(location, d.temperature, condition, Encoded(forecast), now);
  }
}
