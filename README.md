# Travel app weather core, in Dafny

This project models the logic of a Django travel-planning app. Trips have a destination and a start and end date. Activities belong to a trip. The weather for each destination is fetched from a weather API, cached in a table, and shown on the dashboard and on each trip's page.

The model covers:

- **The weather service** (`weather/services.py`):
  - the cache lookup with its three-hour window (`get_weather_for_location`);
  - the fetcher's decisions over the outcomes of its two HTTP calls: mock data, an exception, or a stored live reading (`fetch_weather_from_api`);
  - the mock-data generator;
  - the aggregation of 3-hourly forecast samples into daily forecasts;
  - reading a stored forecast back;
  - the refresh of every stored location.
- **The weather table** (`weather/models.py`): the record, its uniqueness constraint on (location, retrieval time), newest-first ordering, and its string form.
- **The `weather_icon` and `weather_color` template filters**: a first-substring match over an ordered table.
- **The trip's duration** and **the trip form's date check**.
- **The activity form**: its date check and its `save`.
- **The dashboard and trip-detail views** (`trips/views.py`).

How each kind of source code is modelled:

- **Decision logic** becomes pure functions: `FetchPlan`, `FetchSpec`, `ResolveSpec`, `Aggregate`, `Lookup`, `CleanTripDates`, `CleanDateTime` and `UpcomingTrips`.
- **Code that works step by step** becomes methods with loops, proved against those functions:
  - the grouping and counting loops of the aggregator;
  - the mock forecast loop;
  - the refresh loop;
  - the dashboard's destination loop.
- **The weather table** is the class `WeatherModels.WeatherStore`, with a sequence of records that the methods append to.
- **The activity instance, its table and the form** are classes whose fields `Save` updates in place.
- **Outside inputs become parameters:**
  - The HTTP calls become `Outcome` values, one for each way `requests.get`/`raise_for_status`/`.json()` can end.
  - Settings become a `Config` value.
  - The clock becomes integer seconds (`now`) and day numbers (`today`). The refresh reads it once per fetch, so it takes a `clock` function whose k-th value is the time of the k-th fetch.
  - Random draws become a `MockDraws` value.
  - Date formatting becomes a `calendar` function.

Modules:

| module | file | models |
|---|---|---|
| Wrappers | wrappers.dfy | Option and Result |
| Sequences | sequences.dfy | filter, take, stable sort, distinct-in-first-seen-order, first maximum |
| Text | text.dfy | ASCII lower-casing and substring search |
| WeatherModels | weather_models.dfy | `WeatherData` and its table |
| ForecastAggregation | forecast_aggregation.dfy | `process_forecast_data` |
| MockWeather | mock_weather.dfy | `create_mock_weather_data` |
| WeatherFetcher | weather_fetcher.dfy | `fetch_weather_from_api` |
| WeatherResolver | weather_resolver.dfy | `get_weather_for_location`, `get_forecast_from_weather_data`, `refresh_weather_data` |
| WeatherTags | weather_tags.dfy | `weather_icon`, `weather_color` |
| Trips | trips.dfy | `Trip.duration`, `TripForm.clean` |
| ActivityForms | activity_forms.dfy | `ActivityForm.clean_date_time`, `ActivityForm.save` |
| TripViews | trip_views.dfy | `DashboardView.get_context_data`, `TripDetailView.get_context_data` |

## Model

| member | source | states |
|---|---|---|
| WeatherModels.Insert | weather/models.py:15-28 | A create is refused exactly when a row already has this (location, retrieved_at) pair, and then the table is unchanged. Otherwise exactly one row is appended, stamped with the creation time. |
| WeatherModels.InsertKeepsWellKeyed | weather/models.py:23-28 | Creating a row keeps the `unique_location_time` constraint and the key discipline. |
| WeatherModels.NewestFirst | weather/models.py:18 | The default ordering `-retrieved_at`: the rows sorted by descending retrieval time, as stated by `NewestFirstSpec`. |
| WeatherModels.NewestFirstSpec | weather/models.py:18 | The default ordering lists every row once (a permutation), newest `retrieved_at` first. |
| WeatherModels.Describe | weather/models.py:30-31 | The string form contains the location, the conditions and the rendered temperature. |
| WeatherModels.WeatherStore.Create | weather/services.py:178-183 | The table after `objects.create` is the one `Insert` gives, and the constraint still holds. |
| MockWeather.MockForecastDays | weather/services.py:219-237 | The five mock days: for day `i`, the date `today + i`, the current temperature plus that day's variation, and the drawn condition with its lower-cased form as description. `MockForecastShape` states their shape. |
| MockWeather.MockInsert | weather/services.py:212-251 | The mock row the generator asks the table to create: the drawn condition and temperature, and the encoded mock forecast. `MockInsertSpec` states its properties. |
| MockWeather.BuildMockForecast | weather/services.py:219-237 | The five-iteration loop builds exactly the mock forecast days. |
| MockWeather.MockForecastShape | weather/services.py:212-237 | A mock forecast has five days, on consecutive calendar dates. Each condition is from the fixed set of five, each description is the lower-cased condition, and each temperature is within 5 degrees of the current one. |
| MockWeather.MockInsertSpec | weather/services.py:212-251 | A mock record has a condition from the fixed set, a temperature from 10 to 30 degrees and a five-day forecast. It is the one row appended, or the table is unchanged when the pair is taken. |
| MockWeather.CreateMockWeatherData | weather/services.py:199-251 | The generator stores exactly the mock record and keeps the table's constraint. |
| ForecastAggregation.DatePart | weather/services.py:270 | `split(' ')[0]` is the prefix before the first space: a prefix of the timestamp that contains no space and is followed by a space or by the end. |
| ForecastAggregation.ParseSample | weather/services.py:270-283 | A sample fails (KeyError or IndexError) exactly when `dt_txt`, `main.temp` or the `weather` list is missing, the list is empty, or its first entry lacks `main` or `description`. |
| ForecastAggregation.ParseAllSpec | weather/services.py:268-283 | Parsing fails exactly when some sample is malformed. Otherwise every sample is kept, in order. |
| ForecastAggregation.MalformedSampleEmptiesResult | weather/services.py:311-313 | One malformed sample anywhere gives `[]`, never a partial list. |
| ForecastAggregation.OnDateSpec | weather/services.py:272-283 | A day's list holds exactly that day's samples, each as often as it occurs. |
| ForecastAggregation.OnDateNonEmpty | weather/services.py:289 | Every day that occurs has at least one sample, so the `else 0` fallback of the mean is never taken. |
| ForecastAggregation.StableModeSpec | weather/services.py:292-302 | The count dict followed by `max` picks a most frequent value, and on a tie the one met first. |
| ForecastAggregation.StableModeUnique | weather/services.py:292-302 | That rule determines a single value. |
| ForecastAggregation.StableModeEmpty | weather/services.py:296 | With no values, the default is returned. |
| ForecastAggregation.ModeFromTally | weather/services.py:292-296 | `max` over the finished count dict, in insertion order, is the stable mode. |
| ForecastAggregation.MostCommon | weather/services.py:292-296 | The counting-and-max code returns the stable mode, or the default for an empty list. |
| ForecastAggregation.CountValues | weather/services.py:292-294 | The counting loop ends with each value's number of occurrences, and with keys in first-seen order. |
| ForecastAggregation.CountLoopStep | weather/services.py:293-294 | One counting step: a new value enters with count 1 at the end of the keys, and a seen value's count grows by one. |
| ForecastAggregation.TallyStep | weather/services.py:294 | `counts.get(v, 0) + 1` changes only `v`'s count. |
| ForecastAggregation.BucketSnoc | weather/services.py:280-283 | One sample appends its temperature, condition and description to its own day's lists only. |
| ForecastAggregation.AbsentDayEmpty | weather/services.py:272-278 | A day not yet seen starts with empty lists. |
| ForecastAggregation.DaysStep | weather/services.py:272-278 | A date is added to the dict's keys, at the end, exactly when it is new. |
| ForecastAggregation.BucketsStep | weather/services.py:272-283 | One grouping step updates only the sample's own day, which starts empty when new. |
| ForecastAggregation.GroupLoopStep | weather/services.py:268-283 | One iteration of the grouping loop, stated on the loop's dict and key order. |
| ForecastAggregation.GroupByDay | weather/services.py:268-283 | The grouping loop fails exactly when parsing fails. Otherwise its keys are the distinct dates in first-seen order, and each day's lists are that day's values. |
| ForecastAggregation.SummariesAreAggregate | weather/services.py:286-308 | Summarising each day of the dict in key order gives the aggregate. |
| ForecastAggregation.SummarizeDays | weather/services.py:287-308 | The summary loop gives one summary per day, in key order. |
| ForecastAggregation.SummarizeDay | weather/services.py:288-302 | One day's summary is the mean temperature (0 for none) and the two stable modes, with defaults "Unknown" and "". |
| ForecastAggregation.Aggregate | weather/services.py:268-308 | One daily summary per distinct date, in first-seen order: the mean temperature and the stable modes of that day's conditions and descriptions. `AggregateDays`, `AggregateFirstSeenOrder` and `AggregateDay` state this. |
| ForecastAggregation.AggregatePayload | weather/services.py:254-313 | `process_forecast_data` as a function: `[]` without a `list` key or with any malformed sample, otherwise `Aggregate` of the parsed samples. `MalformedSampleEmptiesResult` and `ProcessForecastData` connect to it. |
| ForecastAggregation.ProcessForecastData | weather/services.py:254-313 | `process_forecast_data` gives the aggregate of the parsed samples: `[]` when there is no `list` key or any sample is malformed. |
| ForecastAggregation.AggregateDays | weather/services.py:268-308 | There is exactly one forecast per distinct date, and no date twice. |
| ForecastAggregation.AggregateFirstSeenOrder | weather/services.py:287 | The forecasts come in the order each date first occurs. |
| ForecastAggregation.AggregateDay | weather/services.py:287-305 | Each day's temperature is the mean of its samples, and its condition and description are the stable modes of that day's values. The condition is therefore one that a sample of that day reported. |
| ForecastAggregation.DatePartOfTimestamp | weather/services.py:270 | `"<date> <time>"` yields `<date>` when the date has no space. |
| ForecastAggregation.ParseReading | weather/services.py:270-283 | A complete sample parses to its date, temperature, condition and description. |
| ForecastAggregation.ParseAllSnoc | weather/services.py:268-283 | Parsing one more sample extends the result, or fails. |
| ForecastAggregation.ExampleAggregate | weather/services.py:268-308 | Two samples of one day that agree, then one of another day, give two forecasts. The first is at the mean of its two temperatures. |
| ForecastAggregation.TwoDayExample | weather/tests.py:160-195 | The service test's input shape, for any two distinct dates, gives two days: 19.0 "Clear", then 22.0 "Clouds". |
| ForecastAggregation.ServiceTestExample | weather/tests.py:160-195 | The service test's own input gives the forecasts it expects. |
| WeatherFetcher.FetchPlan | weather/services.py:101-183 | The fetcher's decision. With the key missing: mock data or the key-missing exception. Otherwise, by outcome of the current-weather call: a timeout or connection failure gives mock data or a connection error; an HTTP status or invalid JSON raises its API error; another failure or an empty `weather` list gives mock data or an unexpected error. A good body is stored with defaults 0.0 and "Unknown". Its lemmas state each case. |
| WeatherFetcher.FetchSpec | weather/services.py:86-196 | The fetcher's outcome and the table after it: the planned exception with the table unchanged, or the mock or live row inserted. A refused insert is an unexpected error. `FetchSpecEffect` and `FetchSpecErrors` state its properties. |
| WeatherFetcher.FetchWeatherFromApi | weather/services.py:86-196 | The fetcher's branches, including the insert refused by the constraint, give exactly the outcome and table `FetchSpec` states. |
| WeatherFetcher.MissingKeyPlan | weather/services.py:101-106 | With an empty or placeholder key, the fetcher generates mock data if allowed, otherwise it raises the key-missing exception. It never reaches the API. |
| WeatherFetcher.UnreachablePlan | weather/services.py:124-129 | A timeout or connection failure gives mock data if allowed, otherwise a connection error. |
| WeatherFetcher.RefusedRequestPlan | weather/services.py:130-146 | An HTTP error status or invalid JSON always raises, whatever the mock setting. 401, 404 and 429 each have their own reason, and invalid JSON gives "invalid response format". |
| WeatherFetcher.MockPlanIff | weather/services.py:101-196 | Mock data is generated if and only if it is allowed and one of these holds: the key is missing, the API is unreachable, or an unexpected error occurred (another request error, or an empty `weather` list). |
| WeatherFetcher.NoMockWhenDisabled | weather/services.py:191-196 | With mock data off, no mock data is generated: every input that would give mock data raises instead. |
| WeatherFetcher.ForecastFailureTolerated | weather/services.py:162-172 | A failed forecast call still stores the live reading, with no forecast days. |
| WeatherFetcher.CurrentDefaults | weather/services.py:149-151 | A body without `main.temp` or `weather` is stored at 0.0 degrees with condition "Unknown". |
| WeatherFetcher.LivePlan | weather/services.py:148-183 | A good body stores its temperature, its first entry's `main` and the aggregate of the forecast body. |
| WeatherFetcher.FetchSpecEffect | weather/services.py:178-196 | A success is the one new row, for the requested location and stamped now. A failure leaves the table unchanged. |
| WeatherFetcher.FetchSpecErrors | weather/services.py:188-196 | The API exceptions are re-raised unchanged. A refused insert is an unexpected error, and it happens exactly when the (location, now) pair is taken. |
| WeatherResolver.LatestFresh | weather/services.py:59-66 | The cache query: the newest row for the location retrieved within the last three hours, or none. `LatestFreshSpec` states this. |
| WeatherResolver.LatestFreshSpec | weather/services.py:59-66 | The cache query finds nothing if and only if no row for the location is fresh. Otherwise it gives a fresh row of the table that no fresh row is newer than. |
| WeatherResolver.LatestFreshUnique | weather/models.py:23-28 | Under the uniqueness constraint, the newest fresh row is unambiguous. |
| WeatherResolver.CacheBoundary | weather/services.py:59-62 | A row exactly three hours old is still served from the cache. A row one second older is not. |
| WeatherResolver.ResolveSpec | weather/services.py:41-83 | `get_weather_for_location`: None for an empty location, else the cached row, else the fetcher's row, or None when it raised. `ResolveCacheHit`, `ResolveMiss` and `ResolveIsFresh` state its properties. |
| WeatherResolver.GetWeatherForLocation | weather/services.py:41-83 | The resolver's outcome and table are those `ResolveSpec` states: None for an empty location, otherwise the cached row or the fetcher's result, with exceptions turned into None. |
| WeatherResolver.ResolveCacheHit | weather/services.py:59-66 | With a fresh row, the newest fresh row is returned and the table is untouched. |
| WeatherResolver.ResolveMiss | weather/services.py:68-83 | Without a fresh row, the result is the fetcher's, and None exactly when the fetcher raised. |
| WeatherResolver.ResolveIsFresh | weather/services.py:41-83 | Anything returned is fresh weather for the requested location. The table grows by at most that one row, and an empty location gives None. |
| WeatherResolver.ExtractForecast | weather/services.py:316-333 | No row, an empty column or text that is not JSON gives `[]`. Any non-empty answer is the stored list. |
| WeatherResolver.ExtractStoredForecast | weather/services.py:329-330 | Reading back gives the stored days. |
| WeatherResolver.LiveForecastReadBack | weather/services.py:172-183 | The forecast read back from a stored live row is the aggregate of the forecast body. |
| WeatherResolver.StoredLocations | weather/services.py:345 | The location query, under the default ordering `-retrieved_at` (weather/models.py:18), gives the location of every row, newest row first. |
| WeatherResolver.StoredLocationsSpec | weather/services.py:345 | The query has one entry per row, and holds exactly the locations of the rows. |
| WeatherResolver.RepeatedLocation | weather/services.py:345 | Several rows for one location make the query repeat it once per row, while the distinct locations hold it once. |
| WeatherResolver.RefreshFrom | weather/services.py:345-352 | The refresh as written: one fetch per query entry, each at its own instant. The first exception ends the refresh, and each returned row counts one. |
| WeatherResolver.RefreshWeatherData | weather/services.py:336-352 | The loop over the query's entries, as written, gives the outcome of `RefreshFrom`. Fetch `i` reads the clock as `clock(i)`. |
| WeatherResolver.RefreshCountsEveryLocation | weather/services.py:345-352 | As written, a refresh that returns reports every entry it visited and has added one row per entry. |
| WeatherResolver.RefreshDoublesTable | weather/services.py:345-352 | As written, a refresh that returns reports as many successes as there were rows, and has doubled the table. |
| WeatherResolver.RefreshWeatherDataSkippingFailures | weather/services.py:344-352 | The corrected loop visits each distinct stored location once and skips failed fetches. It gives the outcome of `RefreshSkippingFrom`. |
| WeatherResolver.RefreshSkippingCounts | weather/services.py:336-352 | The corrected count lies between 0 and the number of locations visited, and equals the number of rows added. Existing rows are kept. |
| WeatherResolver.DistinctLocations | weather/services.py:344-345 | The distinct stored locations, each once, in the query's order: what the comment at line 344 says the query gets. |
| WeatherResolver.RefreshSkippingRows | weather/services.py:344-352 | Every row a skipping refresh adds is for one of the locations it visits, and when no location is visited twice no two added rows share a location. |
| WeatherResolver.RefreshOncePerLocation | weather/services.py:344-352 | The corrected refresh visits every stored location exactly once. Each row it adds is for a stored location, no two added rows share a location, the old rows are kept, and its count is the number of rows added. |
| WeatherResolver.RefreshSkippingAgrees | weather/services.py:345-352 | On the same locations, when no fetch fails, the corrected refresh agrees with the one as written. |
| WeatherResolver.RefreshAbortExample | weather/services.py:348-350 | A 404 on the first of two locations aborts the refresh as written, and the second is never fetched. The corrected refresh counts one success and stores the second location's row. |
| WeatherTags.FirstMatchFrom | weather/templatetags/weather_tags.py:81-86 | The search stops at a key that occurs in the text, and no earlier key occurs in it. |
| WeatherTags.LookupSpec | weather/templatetags/weather_tags.py:81-86 | The lookup gives the value of the first key, in table order, that occurs in the text. It gives the default when no key does. |
| WeatherTags.LookupRange | weather/templatetags/weather_tags.py:81-86 | The answer is a table value or the default. |
| WeatherTags.Normalize | weather/templatetags/weather_tags.py:59 | None becomes the empty text, and anything else is lower-cased. |
| WeatherTags.WeatherIcon | weather/templatetags/weather_tags.py:45-86 | `weather_icon`: the icon of the first key in table order that occurs in the lower-cased condition, else "bi-cloud". `LookupSpec` and the lemmas below state this. |
| WeatherTags.WeatherColor | weather/templatetags/weather_tags.py:89-130 | `weather_color`: the colour of the first key in table order that occurs in the lower-cased condition, else "text-secondary". |
| WeatherTags.CaseInsensitive | weather/templatetags/weather_tags.py:59 | A condition and its lower-cased form get the same icon and colour. |
| WeatherTags.NothingInEmpty | weather/templatetags/weather_tags.py:81-86 | No non-empty key occurs in the empty text. |
| WeatherTags.MissingConditionDefaults | weather/templatetags/weather_tags.py:59-86 | None and "" get "bi-cloud" and "text-secondary". |
| WeatherTags.FilterRange | weather/templatetags/weather_tags.py:45-130 | Both filters always return one of their table's values or their default. |
| WeatherTags.NoKeyGivesDefaults | weather/templatetags/weather_tags.py:81-86 | A condition that contains no key gets both defaults. |
| WeatherTags.RainOutranksLaterKeys | weather/templatetags/weather_tags.py:62-83 | Containing "rain" but not "clear" or "clouds" gives the rain entry, whatever later keys also occur. |
| WeatherTags.CloudsOutranksLaterKeys | weather/templatetags/weather_tags.py:62-83 | Containing "clouds" but not "clear" gives the clouds entry, whatever later keys also occur. |
| WeatherTags.ThunderstormWithLightRain | weather/templatetags/weather_tags.py:62-83 | "thunderstorm with light rain" gets "bi-cloud-rain" and "text-primary", because "rain" comes before "thunderstorm" in the table. |
| WeatherTags.SunnyGetsDefaults | weather/templatetags/weather_tags.py:62-86 | The mock condition "Sunny" matches no key and gets the defaults. |
| WeatherTags.PartlyCloudyGetsDefaults | weather/templatetags/weather_tags.py:62-86 | "Partly Cloudy" matches no key ("cloudy" does not contain "clouds") and gets the defaults. |
| WeatherTags.ClearEntry | weather/templatetags/weather_tags.py:63 | "Clear" gets "bi-sun" and "text-warning". |
| WeatherTags.CloudsEntry | weather/templatetags/weather_tags.py:64 | "Clouds" gets "bi-cloud" and "text-secondary". |
| WeatherTags.RainEntry | weather/templatetags/weather_tags.py:65 | "Rain" gets "bi-cloud-rain" and "text-primary". |
| Trips.Duration | trips/models.py:29-30 | `(end_date - start_date).days + 1`. `DurationCountsDays` and `DurationFacts` state what it counts. |
| Trips.DaysBetweenMembers | trips/models.py:29-30 | A day is among the trip's days exactly when it lies between start and end, both ends included. |
| Trips.DurationCountsDays | trips/models.py:29-30 | When the end is not before the start, the duration is the number of calendar days covered, and it is at least 1. |
| Trips.DurationFacts | trips/models.py:30 | A one-day trip lasts 1 day, and shifting both dates by the same amount keeps the duration. |
| Trips.CleanTripDates | trips/forms.py:28-39 | `TripForm.clean`: refuse when both dates are given and the end is before the start, otherwise return the data. `CleanTripDatesSpec` states it as an if-and-only-if. |
| Trips.CleanTripDatesSpec | trips/forms.py:28-39 | The form refuses exactly when both dates are present and the end is before the start, with the form's message. Otherwise the data passes through unchanged. |
| Trips.AcceptedTripHasDays | trips/forms.py:36 | An accepted trip covers at least one day, including its start and end. A same-day trip is accepted. |
| ActivityForms.CleanDateTime | itineraries/forms.py:42-61 | `clean_date_time`: with a trip and a date-time, refuse a date before the trip's start or after its end, otherwise return the value. `CleanDateTimeSpec` states it as an if-and-only-if over the trip's days. |
| ActivityForms.CleanDateTimeSpec | itineraries/forms.py:42-61 | With a trip and a date-time, the value is accepted exactly when its day is one of the trip's days, both ends included. This holds for any stored trip. With either missing, the value passes through unchecked. |
| ActivityForms.InvertedTripRefusesAll | itineraries/forms.py:55-59 | A trip whose end is before its start has no days, and every activity date is refused. |
| ActivityForms.TimeOfDayIgnored | itineraries/forms.py:53 | Only the calendar date is compared. |
| ActivityForms.ActivityTable.SaveInstance | itineraries/forms.py:73 | `instance.save()` writes the instance's row under its key and changes no other row. |
| ActivityForms.ActivityForm.Save | itineraries/forms.py:63-75 | The form's trip, if any, replaces the instance's, and nothing else about the instance changes. The row is written only when `commit` holds. |
| TripViews.UpcomingTrips | trips/views.py:133 | The trips starting today or later, by start date, the first five. `UpcomingSpec` states their properties. |
| TripViews.OngoingTrips | trips/views.py:137-140 | The trips under way today, by end date. `OngoingSpec` states their properties. |
| TripViews.DashboardDestinations | trips/views.py:147-150 | The destinations the loop adds to its set: the distinct ones in first-seen order, until there are three. `DashboardDestinationsSpec` and `ChooseStep` connect it to the loop. |
| TripViews.UpcomingSpec | trips/views.py:133 | At most five upcoming trips are listed, all from the table and starting today or later, earliest start first. No trip left out starts earlier, and all of them are listed when at most five qualify. |
| TripViews.OngoingSpec | trips/views.py:137-140 | The ongoing trips are exactly the trips under way today, soonest end first. |
| TripViews.DashboardDestinationsSpec | trips/views.py:147-150 | At most three destinations are chosen, each once, in first-seen order. All of them are chosen when there are at most three. |
| TripViews.TripStartingTodayOnce | trips/views.py:133-150 | A trip starting today passes the upcoming filter and is ongoing. It is listed as upcoming whenever at most five trips qualify, and its destination is chosen at most once. |
| TripViews.ChooseStep | trips/views.py:149-150 | A trip's destination joins the set exactly when it is new and fewer than three are chosen. |
| TripViews.LookupAll | trips/views.py:148-165 | The dashboard entries and the weather table after looking up the chosen destinations in turn. A None lookup adds no entry. `LookupAllSpec` states its properties. |
| TripViews.LookupAllSpec | trips/views.py:148-160 | There are no more entries than chosen destinations. Each entry is for a chosen, non-empty destination, with fresh weather and the forecast decoded from it. |
| TripViews.LookupAllSnoc | trips/views.py:152-160 | One more lookup runs against the table the earlier lookups left, and its entry, if any, comes last. |
| TripViews.VisitTrip | trips/views.py:149-160 | One iteration of the dashboard loop keeps the set in step with the chosen destinations, and the entries in step with their lookups. |
| TripViews.DestinationsWeather | trips/views.py:147-165 | The dashboard loop's entries and the weather table are those of looking up the chosen destinations in order. A None lookup adds no entry. |
| TripViews.Dashboard | trips/views.py:128-167 | The context holds the upcoming list, the ongoing list, and the weather of the chosen destinations of the two lists together. |
| TripViews.FourDestinationsThreeSlots | trips/views.py:147-150 | Of four different destinations, the first three are looked up. |
| TripViews.NoneLookupTakesSlot | trips/views.py:148-160 | A destination whose lookup gives None still uses a slot, so the fourth destination never gets an entry. |
| TripViews.DetailWeather | trips/views.py:44-61 | The trip page's weather context from what the weather calls did: a row or None, or an exception that clears the weather, sets an empty forecast and raises the error flag. `DetailWeatherSpec` states its properties. |
| TripViews.DetailWeatherSpec | trips/views.py:44-61 | An exception leaves weather None, the forecast empty and the error flag set. Otherwise the forecast is present exactly when weather is, and is decoded from it. |
| TripViews.TripDetailWeather | trips/views.py:37-65 | The trip page shows the resolver's result for the destination. With the resolver modelled here, the error flag is never set. |

## Left out

- The HTTP requests, URL and parameter building, timeouts and the settings module are replaced by `Outcome` values and a `Config` value. Any other exception the current-weather exchange raises is folded into `OtherRequestError`.
- JSON encoding and decoding are not modelled. The forecast column is either a list of days, the empty text, or text that is not JSON. A decoded forecast body is an optional list of samples, and a body that is not a dictionary or list is not modelled.
- The clock, date formatting, `uuid4` keys and `random` are not modelled either:
  - The time is integer seconds and days are day numbers.
  - The date of "today + i days" comes from a `calendar` function.
  - The record's key is its insertion position.
  - Random choices are inputs bounded by `ValidDraws`.
- MockWeather.MockForecastShape: Python's `round(x, 1)` on the drawn temperatures is not modelled, so the bounds are stated on the unrounded values.
- ForecastAggregation.AggregateDay: temperatures are reals, and the mean is stated before `round(avg_temp, 1)`. Floating-point summation is not modelled.
- The description read at weather/services.py:151 is computed and never stored, so the model does not carry it.
- The database's order between rows with equal sort keys is not specified. The model's sort keeps such rows in table order (a stable sort).
- WeatherResolver.FetchAt: the outside world (HTTP outcomes and mock draws) is a function of the location alone. When the refresh as written fetches one location once per row, every repeat fetch gets the same answers as the first, so a location answering 200 and then 429 within one refresh is not expressible. Only the clock is indexed by fetch number.
- WeatherFetcher.FetchSpec: one instant `now` serves every clock read within one call, and within one dashboard request. The mock insert after a refused live insert is therefore refused too. In the source, that mock row gets its own timestamp. A live insert is refused only under concurrent requests, which are not modelled.
- ActivityForms.ActivityTable.SaveInstance: an activity row with no trip is written as it is. The database's NOT NULL refusal of the trip column is not modelled. The views always give the form a trip, so this case does not arise through them.
- Logging, concurrency (two identical requests inserting at once) and transactions are not modelled. The model is single-threaded.
- TripViews.DestinationsWeather and TripViews.TripDetailWeather: the `except Exception` handlers of the two views are not reachable with the resolver modelled here, because `get_weather_for_location` turns every failure into None. `DetailWeather` still states what the trip page does when a lookup raises.
- ActivityForms.CleanDateTime: the refusal message's rendering of the trip's start and end dates is not modelled.
- The CRUD views of trips and activities, messages, redirects, URL routing, admin registration, form widgets and CSS classes are not part of this model. Neither are the `get_weather` and `get_forecast` template tags, which only call the service.
- Text lower-casing covers ASCII letters only. Unicode case mapping is not modelled.

## Findings

| source | as written | input that shows it | evidently intended | confidence | as-written member | corrected member |
|---|---|---|---|---|---|---|
| weather/services.py:345-352 | `refresh_weather_data` calls the fetcher without a `try`. The first location whose fetch raises ends the refresh with that exception, and later locations are never fetched. When it does return, the "number of locations successfully refreshed" always equals the number of locations. | An API key is configured, and the first stored location answers 404 (`WeatherAPIException("Location not found")`). | Skip a location whose fetch fails, try the rest, and return the number of fetches that succeeded. | not executed | WeatherResolver.RefreshAbortExample | WeatherResolver.RefreshSkippingCounts |
| weather/services.py:344-345 | The comment says the query gets distinct locations. The default ordering `-retrieved_at` joins the SELECT DISTINCT, and (location, retrieved_at) is unique, so the query gives one location per row. A location is fetched once per stored row, and a refresh in which every fetch succeeds doubles the table. | Two rows for "Paris", fetched 4 hours apart: "Paris" is fetched twice, two rows are added and the count is 2. | Fetch each distinct location once (for example with `order_by()` before `distinct()`). | not executed | WeatherResolver.RefreshDoublesTable | WeatherResolver.RefreshOncePerLocation |
