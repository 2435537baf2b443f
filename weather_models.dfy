/** The stored weather record (weather/models.py) and the table that holds it.
    Timestamps are whole seconds on one clock; the record's uuid4 key is
    modelled as its insertion position, which is just as unique. */
module WeatherModels {
  import opened Wrappers
  import opened Sequences
  import opened Text

  /** One calendar day of forecast, as produced by the aggregator or the mock generator. */
  datatype DailyForecast = DailyForecast(date: string, temperature: real, condition: string, description: string)

  /** The `forecast` text column: JSON text holding a list of days, the empty
      text, or text that is not JSON at all. */
  datatype ForecastText = Encoded(days: seq<DailyForecast>) | EmptyText | NotJson

  datatype WeatherRecord = WeatherRecord(
    id: nat,
    location: string,
    temperature: real,
    conditions: string,
    forecast: ForecastText,
    retrievedAt: int)

  /** The `unique_location_time` constraint: no two rows share location and retrieval time. */
  predicate UniqueLocationTime(records: seq<WeatherRecord>)
  {
    forall i, j :: 0 <= i < j < |records| ==>
      records[i].location != records[j].location || records[i].retrievedAt != records[j].retrievedAt
  }

  /** Some row already holds this (location, retrieved_at) pair. */
  predicate Taken(records: seq<WeatherRecord>, location: string, at: int)
  {
    exists i :: 0 <= i < |records| && records[i].location == location && records[i].retrievedAt == at
  }

  /** `objects.create(...)`: the new row gets the next key and `retrieved_at = now`
      (auto_now_add); the database refuses a duplicate (location, retrieved_at)
      with an IntegrityError, shown here as None with the table unchanged. */
  function Insert(records: seq<WeatherRecord>, location: string, temperature: real,
                  conditions: string, forecast: ForecastText, now: int): (out: (Option<WeatherRecord>, seq<WeatherRecord>))
    ensures out.0.None? <==> Taken(records, location, now)
    ensures out.0.None? ==> out.1 == records
    ensures out.0.Some? ==> out.1 == records + [out.0.value]
    ensures out.0.Some? ==> out.0.value == WeatherRecord(|records|, location, temperature, conditions, forecast, now)
  {
    if Taken(records, location, now) then (None, records)
    else
      var r := WeatherRecord(|records|, location, temperature, conditions, forecast, now);
      (Some(r), records + [r])
  }

  /** Rows are keyed by position, and the uniqueness constraint holds. */
  ghost predicate WellKeyed(records: seq<WeatherRecord>)
  {
    UniqueLocationTime(records) && forall i :: 0 <= i < |records| ==> records[i].id == i
  }

  /** Inserting keeps both the key discipline and the uniqueness constraint. */
  lemma InsertKeepsWellKeyed(records: seq<WeatherRecord>, location: string, temperature: real,
                             conditions: string, forecast: ForecastText, now: int)
    requires WellKeyed(records)
    ensures WellKeyed(Insert(records, location, temperature, conditions, forecast, now).1)
  {
    var out := Insert(records, location, temperature, conditions, forecast, now);
    if out.0.Some? {
      var rs := out.1;
      forall i, j | 0 <= i < j < |rs|
        ensures rs[i].location != rs[j].location || rs[i].retrievedAt != rs[j].retrievedAt
      {
        if j == |records| {
          assert rs[i] == records[i];
        }
      }
    }
  }

  function RecencyKey(r: WeatherRecord): int
  {
    -r.retrievedAt
  }

  /** The default ordering `['-retrieved_at']`: newest record first. */
  function NewestFirst(records: seq<WeatherRecord>): (r: seq<WeatherRecord>)
  {
    SortBy(records, RecencyKey)
  }

  /** The default ordering lists every row once, newest first. */
  lemma NewestFirstSpec(records: seq<WeatherRecord>)
    ensures multiset(NewestFirst(records)) == multiset(records)
    ensures forall i, j :: 0 <= i < j < |NewestFirst(records)| ==>
      NewestFirst(records)[i].retrievedAt >= NewestFirst(records)[j].retrievedAt
  {
    SortBySpec(records, RecencyKey);
  }

  /** `__str__`: "<location> - <conditions> (<temperature>°C) at <time>". The float
      and timestamp renderings are given, since formatting is not modelled. */
  function Describe(r: WeatherRecord, temperatureText: string, timeText: string): (s: string)
    ensures IsSubstring(r.location, s)
    ensures IsSubstring(r.conditions, s)
    ensures IsSubstring(temperatureText, s)
  {
    var a := r.location + " - ";
    var b := a + r.conditions + " (";
    var s := b + temperatureText + "°C) at " + timeText;
    assert SliceAt(r.location, s, 0) by { assert s[..|r.location|] == r.location; }
    assert SliceAt(r.conditions, s, |a|) by { assert s[|a|..|a| + |r.conditions|] == r.conditions; }
    assert SliceAt(temperatureText, s, |b|) by { assert s[|b|..|b| + |temperatureText|] == temperatureText; }
    IsSubstringSlice(r.location, s);
    IsSubstringSlice(r.conditions, s);
    IsSubstringSlice(temperatureText, s);
    s
  }

  /** The WeatherData table, append-only from the weather core's point of view. */
  class WeatherStore {
    var records: seq<WeatherRecord>

    ghost predicate Valid()
      reads this
    {
      WellKeyed(records)
    }

    constructor ()
      ensures Valid() && records == []
    {
      records := [];
    }

    /** `WeatherData.objects.create(...)` at time `now`. */
    method Create(location: string, temperature: real, conditions: string, forecast: ForecastText, now: int)
      returns (r: Option<WeatherRecord>)
      requires Valid()
      modifies this
      ensures Valid()
      ensures (r, records) == Insert(old(records), location, temperature, conditions, forecast, now)
    {
      InsertKeepsWellKeyed(records, location, temperature, conditions, forecast, now);
      var out := Insert(records, location, temperature, conditions, forecast, now);
      r, records := out.0, out.1;
    }
  }
}
