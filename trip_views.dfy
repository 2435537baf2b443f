/** The two views of trips/views.py that carry logic: the dashboard, which
    lists upcoming and ongoing trips and looks up the weather of up to three
    of their destinations, and the trip page, which degrades to an error
    flag when the weather lookup raises. The Trip table is a sequence. */
module TripViews {
  import opened Wrappers
  import opened Sequences
  import opened WeatherModels
  import opened MockWeather
  import opened WeatherFetcher
  import opened WeatherResolver
  import opened Trips

  /** Upcoming trips listed on the dashboard. */
  const UpcomingCap: nat := 5

  /** Destinations whose weather the dashboard looks up. */
  const DestinationCap: nat := 3

  function StartKey(t: Trip): int { t.startDate }

  function EndKey(t: Trip): int { t.endDate }

  predicate StartsFrom(t: Trip, today: int)
  {
    t.startDate >= today
  }

  predicate Underway(t: Trip, today: int)
  {
    t.startDate <= today <= t.endDate
  }

  /** `filter(start_date__gte=today).order_by('start_date')[:5]`. */
  function UpcomingTrips(trips: seq<Trip>, today: int): seq<Trip>
  {
    Take(SortBy(Filter(trips, t => StartsFrom(t, today)), StartKey), UpcomingCap)
  }

  /** `filter(start_date__lte=today, end_date__gte=today).order_by('end_date')`. */
  function OngoingTrips(trips: seq<Trip>, today: int): seq<Trip>
  {
    SortBy(Filter(trips, t => Underway(t, today)), EndKey)
  }

  /** The upcoming list holds at most five trips, all starting today or
      later, earliest start first; no trip left out starts earlier than a
      listed one, and when at most five qualify, all of them are listed. */
  lemma UpcomingSpec(trips: seq<Trip>, today: int)
    ensures var u := UpcomingTrips(trips, today);
      |u| <= UpcomingCap &&
      (forall i :: 0 <= i < |u| ==> u[i] in trips && StartsFrom(u[i], today)) &&
      SortedBy(u, StartKey)
    ensures var u := UpcomingTrips(trips, today);
      forall t, i :: t in trips && StartsFrom(t, today) && t !in u && 0 <= i < |u| ==> u[i].startDate <= t.startDate
    ensures var q := Filter(trips, t => StartsFrom(t, today));
      |q| <= UpcomingCap ==> multiset(UpcomingTrips(trips, today)) == multiset(q)
  {
    var q := Filter(trips, t => StartsFrom(t, today));
    var s := SortBy(q, StartKey);
    SortBySpec(q, StartKey);
    var u := Take(s, UpcomingCap);
    forall i | 0 <= i < |u|
      ensures u[i] in trips && StartsFrom(u[i], today)
    {
      assert u[i] == s[i];
      assert s[i] in multiset(q);
    }
    forall t, i | t in trips && StartsFrom(t, today) && t !in u && 0 <= i < |u|
      ensures u[i].startDate <= t.startDate
    {
      assert t in q;
      assert t in multiset(s);
      var k :| 0 <= k < |s| && s[k] == t;
      assert u[i] == s[i];
    }
  }

  /** The ongoing list holds exactly the trips under way today, soonest end first. */
  lemma OngoingSpec(trips: seq<Trip>, today: int)
    ensures var o := OngoingTrips(trips, today);
      (forall i :: 0 <= i < |o| ==> o[i] in trips && Underway(o[i], today)) &&
      (forall t :: t in trips && Underway(t, today) ==> t in o) &&
      multiset(o) == multiset(Filter(trips, t => Underway(t, today))) &&
      SortedBy(o, EndKey)
  {
    var q := Filter(trips, t => Underway(t, today));
    SortBySpec(q, EndKey);
    var o := OngoingTrips(trips, today);
    forall i | 0 <= i < |o|
      ensures o[i] in trips && Underway(o[i], today)
    {
      assert o[i] in multiset(q);
    }
    forall t | t in trips && Underway(t, today)
      ensures t in o
    {
      assert t in q;
      assert t in multiset(o);
    }
  }

  function Destinations(ts: seq<Trip>): (ds: seq<string>)
    ensures |ds| == |ts|
  {
    seq(|ts|, i requires 0 <= i < |ts| => ts[i].destination)
  }

  /** The destinations the loop adds to its `destinations` set: the distinct
      ones in first-seen order, until there are three. */
  function DashboardDestinations(ts: seq<Trip>): seq<string>
  {
    Take(Distinct(Destinations(ts)), DestinationCap)
  }

  /** At most three destinations, each once, each a trip's destination, in
      the order they are first met; all of them when there are at most three. */
  lemma DashboardDestinationsSpec(ts: seq<Trip>)
    ensures var ds := DashboardDestinations(ts);
      |ds| <= DestinationCap && NoDuplicates(ds) &&
      (forall k :: 0 <= k < |ds| ==> ds[k] in Destinations(ts)) &&
      (forall i, j :: 0 <= i < j < |ds| ==>
        FirstIndex(Destinations(ts), ds[i]) < FirstIndex(Destinations(ts), ds[j])) &&
      (|Distinct(Destinations(ts))| <= DestinationCap ==>
        forall t :: t in ts ==> t.destination in ds)
  {
    var names := Destinations(ts);
    var d := Distinct(names);
    DistinctContents(names);
    var ds := DashboardDestinations(ts);
    forall i, j | 0 <= i < j < |ds|
      ensures FirstIndex(names, ds[i]) < FirstIndex(names, ds[j])
    {
      DistinctFirstSeen(names, i, j);
    }
    if |d| <= DestinationCap {
      forall t | t in ts
        ensures t.destination in ds
      {
        var k :| 0 <= k < |ts| && ts[k] == t;
        assert names[k] == t.destination;
      }
    }
  }

  /** A trip that starts today passes the upcoming filter and is ongoing; it
      is listed as upcoming unless five or more other trips crowd it out, and
      its destination is still chosen at most once. */
  lemma TripStartingTodayOnce(trips: seq<Trip>, today: int, t: Trip)
    requires t in trips && t.startDate == today <= t.endDate
    ensures t in Filter(trips, t => StartsFrom(t, today))
    ensures |Filter(trips, t => StartsFrom(t, today))| <= UpcomingCap ==> t in UpcomingTrips(trips, today)
    ensures t in OngoingTrips(trips, today)
    ensures var ds := DashboardDestinations(UpcomingTrips(trips, today) + OngoingTrips(trips, today));
      forall i, j :: 0 <= i < j < |ds| && ds[i] == t.destination ==> ds[j] != t.destination
  {
    UpcomingSpec(trips, today);
    OngoingSpec(trips, today);
    var q := Filter(trips, t => StartsFrom(t, today));
    assert t in q;
    if |q| <= UpcomingCap {
      assert t in multiset(UpcomingTrips(trips, today));
    }
    DistinctContents(Destinations(UpcomingTrips(trips, today) + OngoingTrips(trips, today)));
  }

  /** One entry of `destinations_weather`. */
  datatype DestinationWeather = DestinationWeather(destination: string, weather: WeatherRecord, forecast: seq<DailyForecast>)

  /** The entries and the weather table after looking up `dests` in order;
      a lookup that gives None adds no entry. */
  function LookupAll(records: seq<WeatherRecord>, dests: seq<string>, cfg: Config, world: string -> FetchInputs,
                     calendar: int -> string, today: int, now: int): (seq<DestinationWeather>, seq<WeatherRecord>)
    requires ValidInputs(world)
  {
    if dests == [] then ([], records)
    else
      var (entries, mid) := LookupAll(records, dests[..|dests| - 1], cfg, world, calendar, today, now);
      var d := dests[|dests| - 1];
      var (r, after) := ResolveSpec(mid, cfg, d, world(d).current, world(d).forecast, world(d).draws, calendar, today, now);
      (if r.Some? then entries + [DestinationWeather(d, r.value, ExtractForecast(r))] else entries, after)
  }

  /** No more entries than destinations; every entry is for one of them,
      never for the empty name, carries weather for it no older than the cache window, and its
      forecast is the one decoded from that weather. */
  lemma {:induction false} LookupAllSpec(records: seq<WeatherRecord>, dests: seq<string>, cfg: Config, world: string -> FetchInputs,
                                         calendar: int -> string, today: int, now: int)
    requires ValidInputs(world)
    ensures var (es, _) := LookupAll(records, dests, cfg, world, calendar, today, now);
      |es| <= |dests| &&
      forall k :: 0 <= k < |es| ==>
        es[k].destination in dests && es[k].destination != "" && Fresh(es[k].weather, es[k].destination, now) &&
        es[k].forecast == ExtractForecast(Some(es[k].weather))
  {
    if dests != [] {
      var init := dests[..|dests| - 1];
      LookupAllSpec(records, init, cfg, world, calendar, today, now);
      var (entries, mid) := LookupAll(records, init, cfg, world, calendar, today, now);
      var d := dests[|dests| - 1];
      ResolveIsFresh(mid, cfg, d, world(d).current, world(d).forecast, world(d).draws, calendar, today, now);
      forall k | 0 <= k < |entries|
        ensures entries[k].destination in dests
      {
        assert entries[k].destination in init;
      }
    }
  }

  /** Looking up one more destination: its lookup runs against the table
      the earlier lookups left, and its entry, if any, comes last. */
  lemma LookupAllSnoc(records: seq<WeatherRecord>, dests: seq<string>, d: string, cfg: Config,
                      world: string -> FetchInputs, calendar: int -> string, today: int, now: int,
                      entries: seq<DestinationWeather>, mid: seq<WeatherRecord>, r: Option<WeatherRecord>,
                      after: seq<WeatherRecord>)
    requires ValidInputs(world)
    requires (entries, mid) == LookupAll(records, dests, cfg, world, calendar, today, now)
    requires (r, after) == ResolveSpec(mid, cfg, d, world(d).current, world(d).forecast, world(d).draws, calendar, today, now)
    ensures LookupAll(records, dests + [d], cfg, world, calendar, today, now) ==
      (if r.Some? then entries + [DestinationWeather(d, r.value, ExtractForecast(r))] else entries, after)
  {
    assert (dests + [d])[..|dests|] == dests;
  }

  /** One trip of the dashboard's loop on its `destinations` set: the trip's
      destination joins the chosen ones exactly when it is new and fewer than
      three are chosen. */
  lemma ChooseStep(prefix: seq<Trip>, trip: Trip, chosen: seq<string>, destinations: set<string>)
    requires chosen == DashboardDestinations(prefix)
    requires forall x :: x in destinations <==> x in chosen
    requires |destinations| == |chosen|
    ensures DashboardDestinations(prefix + [trip]) ==
      if trip.destination !in destinations && |destinations| < DestinationCap then chosen + [trip.destination] else chosen
    ensures trip.destination !in destinations ==> |destinations + {trip.destination}| == |chosen| + 1
  {
    assert Destinations(prefix + [trip]) == Destinations(prefix) + [trip.destination];
    TakeDistinctSnoc(Destinations(prefix), trip.destination, DestinationCap);
  }

  /** The dashboard's loop over the upcoming and then the ongoing trips:
      a destination not yet in the set, while the set holds fewer than
      three, is added and its weather looked up; the entry is appended
      only when the lookup gives a record. */
  method DestinationsWeather(store: WeatherStore, candidates: seq<Trip>, cfg: Config, world: string -> FetchInputs,
                             calendar: int -> string, today: int, now: int)
    returns (entries: seq<DestinationWeather>)
    requires store.Valid() && ValidInputs(world)
    modifies store
    ensures store.Valid()
    ensures (entries, store.records) ==
      LookupAll(old(store.records), DashboardDestinations(candidates), cfg, world, calendar, today, now)
  {
    entries := [];
    var destinations: set<string> := {};
    ghost var chosen: seq<string> := [];
    var i := 0;
    while i < |candidates|
      invariant 0 <= i <= |candidates|
      invariant store.Valid()
      invariant chosen == DashboardDestinations(candidates[..i])
      invariant forall x :: x in destinations <==> x in chosen
      invariant |destinations| == |chosen|
      invariant (entries, store.records) == LookupAll(old(store.records), chosen, cfg, world, calendar, today, now)
    {
      assert candidates[..i + 1] == candidates[..i] + [candidates[i]];
      ChooseStep(candidates[..i], candidates[i], chosen, destinations);
      destinations, entries, chosen :=
        VisitTrip(store, candidates[i], destinations, entries, chosen, old(store.records), cfg, world, calendar, today, now);
      i := i + 1;
    }
    assert candidates[..i] == candidates;
  }

  /** One iteration of the dashboard's loop, for `trip`. */
  method VisitTrip(store: WeatherStore, trip: Trip, destinations: set<string>, entries: seq<DestinationWeather>,
                   ghost chosen: seq<string>, ghost records: seq<WeatherRecord>, cfg: Config, world: string -> FetchInputs,
                   calendar: int -> string, today: int, now: int)
    returns (destinations': set<string>, entries': seq<DestinationWeather>, ghost chosen': seq<string>)
    requires store.Valid() && ValidInputs(world)
    requires forall x :: x in destinations <==> x in chosen
    requires trip.destination !in destinations ==> |destinations + {trip.destination}| == |chosen| + 1
    requires |destinations| == |chosen|
    requires (entries, store.records) == LookupAll(records, chosen, cfg, world, calendar, today, now)
    modifies store
    ensures store.Valid()
    ensures chosen' ==
      if trip.destination !in destinations && |destinations| < DestinationCap then chosen + [trip.destination] else chosen
    ensures forall x :: x in destinations' <==> x in chosen'
    ensures |destinations'| == |chosen'|
    ensures (entries', store.records) == LookupAll(records, chosen', cfg, world, calendar, today, now)
  {
    destinations', entries', chosen' := destinations, entries, chosen;
    if trip.destination !in destinations && |destinations| < DestinationCap {
      ghost var mid := store.records;
      var w := world(trip.destination);
      var r := GetWeatherForLocation(store, cfg, trip.destination, w.current, w.forecast, w.draws, calendar, today, now);
      LookupAllSnoc(records, chosen, trip.destination, cfg, world, calendar, today, now, entries, mid, r, store.records);
      destinations' := destinations + {trip.destination};
      chosen' := chosen + [trip.destination];
      if r.Some? {
        var forecast := ExtractForecast(r);
        entries' := entries + [DestinationWeather(trip.destination, r.value, forecast)];
      }
    }
  }

  /** The dashboard's context. */
  datatype DashboardContext = DashboardContext(
    upcomingTrips: seq<Trip>,
    ongoingTrips: seq<Trip>,
    destinationsWeather: seq<DestinationWeather>)

  /** `DashboardView.get_context_data` on the Trip table `trips`, for the date `today`. */
  method Dashboard(store: WeatherStore, trips: seq<Trip>, cfg: Config, world: string -> FetchInputs,
                   calendar: int -> string, today: int, now: int)
    returns (ctx: DashboardContext)
    requires store.Valid() && ValidInputs(world)
    modifies store
    ensures store.Valid()
    ensures ctx.upcomingTrips == UpcomingTrips(trips, today)
    ensures ctx.ongoingTrips == OngoingTrips(trips, today)
    ensures (ctx.destinationsWeather, store.records) ==
      LookupAll(old(store.records), DashboardDestinations(UpcomingTrips(trips, today) + OngoingTrips(trips, today)),
                cfg, world, calendar, today, now)
  {
    var upcoming := UpcomingTrips(trips, today);
    var ongoing := OngoingTrips(trips, today);
    var entries := DestinationsWeather(store, upcoming + ongoing, cfg, world, calendar, today, now);
    ctx := DashboardContext(upcoming, ongoing, entries);
  }

  /** Among four trips with four different destinations, the first three
      destinations are the ones looked up. */
  lemma FourDestinationsThreeSlots(t0: Trip, t1: Trip, t2: Trip, t3: Trip)
    requires NoDuplicates([t0.destination, t1.destination, t2.destination, t3.destination])
    ensures DashboardDestinations([t0, t1, t2, t3]) == [t0.destination, t1.destination, t2.destination]
  {
    var names := Destinations([t0, t1, t2, t3]);
    assert names == [t0.destination, t1.destination, t2.destination, t3.destination];
    assert names[..3][..2][..1] == [t0.destination];
    assert names[..3][..2] == [t0.destination, t1.destination];
    assert names[..3] == [t0.destination, t1.destination, t2.destination];
    assert Distinct(names[..3][..2][..1]) == [t0.destination];
    assert Distinct(names[..3][..2]) == [t0.destination, t1.destination];
    assert Distinct(names[..3]) == [t0.destination, t1.destination, t2.destination];
  }

  /** A destination whose lookup gives None still takes one of the three
      slots: with an unnamed destination first among four, neither it nor
      the fourth, which is never looked up, gets an entry. */
  lemma NoneLookupTakesSlot(t0: Trip, t1: Trip, t2: Trip, t3: Trip, records: seq<WeatherRecord>, cfg: Config,
                            world: string -> FetchInputs, calendar: int -> string, today: int, now: int)
    requires ValidInputs(world)
    requires t0.destination == ""
    requires NoDuplicates([t0.destination, t1.destination, t2.destination, t3.destination])
    ensures var (es, _) := LookupAll(records, DashboardDestinations([t0, t1, t2, t3]), cfg, world, calendar, today, now);
      forall k :: 0 <= k < |es| ==> es[k].destination != t3.destination && es[k].destination != ""
  {
    var all := [t0.destination, t1.destination, t2.destination, t3.destination];
    FourDestinationsThreeSlots(t0, t1, t2, t3);
    var dests := DashboardDestinations([t0, t1, t2, t3]);
    assert t3.destination !in dests by {
      assert all[0] != all[3] && all[1] != all[3] && all[2] != all[3];
    }
    LookupAllSpec(records, dests, cfg, world, calendar, today, now);
  }

  /** The trip page's weather context: `forecast` is None where the key is
      never set. */
  datatype DetailContext = DetailContext(weather: Option<WeatherRecord>, forecast: Option<seq<DailyForecast>>, weatherError: bool)

  /** `TripDetailView.get_context_data` given what the weather calls did: a
      record or None, or an exception, which empties the weather, sets an
      empty forecast and raises the error flag. */
  function DetailWeather(lookup: Result<Option<WeatherRecord>, string>): (c: DetailContext)
  {
    match lookup
    case Failure(_) => DetailContext(None, Some([]), true)
    case Success(w) => DetailContext(w, if w.Some? then Some(ExtractForecast(w)) else None, false)
  }

  /** The page never breaks: on an exception weather is None, the forecast
      empty and the flag set; otherwise a forecast is present exactly when
      weather is, and is the one decoded from it. */
  lemma DetailWeatherSpec(lookup: Result<Option<WeatherRecord>, string>)
    ensures var c := DetailWeather(lookup);
      (c.weatherError <==> lookup.Failure?) &&
      (c.weatherError ==> c.weather.None? && c.forecast == Some([])) &&
      (!c.weatherError ==> c.weather == lookup.value && (c.forecast.Some? <==> c.weather.Some?)) &&
      (c.forecast.Some? && c.weather.Some? ==> c.forecast.value == ExtractForecast(c.weather))
  {
  }

  /** The trip page's weather part, with the weather service modelled here,
      which turns every failure into None itself. */
  method TripDetailWeather(store: WeatherStore, trip: Trip, cfg: Config, inputs: FetchInputs,
                           calendar: int -> string, today: int, now: int)
    returns (c: DetailContext)
    requires store.Valid() && ValidDraws(inputs.draws)
    modifies store
    ensures store.Valid()
    ensures var (r, after) := ResolveSpec(old(store.records), cfg, trip.destination, inputs.current, inputs.forecast,
                                          inputs.draws, calendar, today, now);
      c == DetailWeather(Success(r)) && store.records == after && !c.weatherError
  {
    var w := GetWeatherForLocation(store, cfg, trip.destination, inputs.current, inputs.forecast, inputs.draws, calendar, today, now);
    c := DetailContext(w, None, false);
    if w.Some? {
      c := c.(forecast := Some(ExtractForecast(w)));
    }
  }
}
