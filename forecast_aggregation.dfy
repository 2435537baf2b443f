/** `process_forecast_data` (weather/services.py): 3-hourly provider samples are
    grouped by calendar day into one DailyForecast per day. Temperatures are
    reals and the day's value is the exact mean; Python's `round(x, 1)` is not
    modelled. */
module ForecastAggregation {
  import opened Wrappers
  import opened Sequences
  import opened WeatherModels

  /** One element of a sample's `weather` list. A missing key is None. */
  datatype WeatherEntry = WeatherEntry(main: Option<string>, description: Option<string>)

  /** One element of the provider's `list`, as decoded JSON: `dt_txt`,
      `main.temp` and the `weather` list, each None when the key is missing. */
  datatype RawSample = RawSample(dtTxt: Option<string>, temp: Option<real>, weather: Option<seq<WeatherEntry>>)

  /** The decoded forecast response; None when it has no `list` key. */
  type ForecastPayload = Option<seq<RawSample>>

  /** A sample whose every field the aggregator reads is present. */
  datatype Sample = Sample(date: string, temp: real, condition: string, description: string)

  /** The per-day lists the aggregator collects. */
  datatype DayBucket = DayBucket(temps: seq<real>, conditions: seq<string>, descriptions: seq<string>)

  /** `dt_txt.split(' ')[0]`: the text before the first space. */
  function DatePart(dtTxt: string): (d: string)
    ensures |d| <= |dtTxt| && dtTxt[..|d|] == d
    ensures ' ' !in d
    ensures |d| < |dtTxt| ==> dtTxt[|d|] == ' '
  {
    if dtTxt == [] || dtTxt[0] == ' ' then []
    else [dtTxt[0]] + DatePart(dtTxt[1..])
  }

  /** The key and index lookups of one loop iteration; None where Python raises
      KeyError (a missing key) or IndexError (an empty `weather` list). */
  function ParseSample(raw: RawSample): (r: Option<Sample>)
    ensures r.None? <==>
      raw.dtTxt.None? || raw.temp.None? || raw.weather.None? || raw.weather.value == [] ||
      raw.weather.value[0].main.None? || raw.weather.value[0].description.None?
  {
    if raw.dtTxt.None? || raw.temp.None? || raw.weather.None? || raw.weather.value == [] then None
    else
      var w := raw.weather.value[0];
      if w.main.None? || w.description.None? then None
      else Some(Sample(DatePart(raw.dtTxt.value), raw.temp.value, w.main.value, w.description.value))
  }

  /** All samples parsed, or None as soon as one of them is malformed. */
  function ParseAll(items: seq<RawSample>): Option<seq<Sample>>
  {
    if items == [] then Some([])
    else
      match ParseAll(items[..|items| - 1])
      case None => None
      case Some(ps) =>
        match ParseSample(items[|items| - 1])
        case None => None
        case Some(p) => Some(ps + [p])
  }

  /** Parsing fails exactly when some sample is malformed; otherwise it keeps every sample, in order. */
  lemma {:induction false} ParseAllSpec(items: seq<RawSample>)
    ensures ParseAll(items).None? <==> exists i :: 0 <= i < |items| && ParseSample(items[i]).None?
    ensures ParseAll(items).Some? ==>
      |ParseAll(items).value| == |items| &&
      forall i :: 0 <= i < |items| ==> Some(ParseAll(items).value[i]) == ParseSample(items[i])
  {
    if items != [] {
      var n := |items| - 1;
      var init := items[..n];
      ParseAllSpec(init);
      assert forall i :: 0 <= i < n ==> init[i] == items[i];
      if ParseAll(init).None? {
        var i :| 0 <= i < n && ParseSample(init[i]).None?;
        assert ParseSample(items[i]).None?;
      }
    }
  }

  /** Any missing key or index, in any sample, empties the whole result. */
  lemma MalformedSampleEmptiesResult(items: seq<RawSample>, i: nat)
    requires i < |items| && ParseSample(items[i]).None?
    ensures ParseAll(items).None? && AggregatePayload(Some(items)) == []
  {
    ParseAllSpec(items);
  }

  function Dates(samples: seq<Sample>): (r: seq<string>)
    ensures |r| == |samples| && forall i :: 0 <= i < |samples| ==> r[i] == samples[i].date
  {
    seq(|samples|, i requires 0 <= i < |samples| => samples[i].date)
  }

  function Temps(samples: seq<Sample>): (r: seq<real>)
    ensures |r| == |samples| && forall i :: 0 <= i < |samples| ==> r[i] == samples[i].temp
  {
    seq(|samples|, i requires 0 <= i < |samples| => samples[i].temp)
  }

  function Conditions(samples: seq<Sample>): (r: seq<string>)
    ensures |r| == |samples| && forall i :: 0 <= i < |samples| ==> r[i] == samples[i].condition
  {
    seq(|samples|, i requires 0 <= i < |samples| => samples[i].condition)
  }

  function Descriptions(samples: seq<Sample>): (r: seq<string>)
    ensures |r| == |samples| && forall i :: 0 <= i < |samples| ==> r[i] == samples[i].description
  {
    seq(|samples|, i requires 0 <= i < |samples| => samples[i].description)
  }

  /** The samples of calendar day `d`, in input order. */
  function OnDate(samples: seq<Sample>, d: string): seq<Sample>
  {
    if samples == [] then []
    else
      var last := samples[|samples| - 1];
      OnDate(samples[..|samples| - 1], d) + (if last.date == d then [last] else [])
  }

  /** OnDate keeps exactly the samples of day `d`, each as often as it occurs. */
  lemma {:induction false} OnDateSpec(samples: seq<Sample>, d: string)
    ensures forall s :: s in OnDate(samples, d) ==> s.date == d
    ensures forall i :: 0 <= i < |samples| && samples[i].date == d ==> samples[i] in OnDate(samples, d)
    ensures forall s: Sample :: s.date == d ==> multiset(OnDate(samples, d))[s] == multiset(samples)[s]
  {
    if samples != [] {
      var n := |samples| - 1;
      var init := samples[..n];
      OnDateSpec(init, d);
      assert samples == init + [samples[n]];
      forall i | 0 <= i < n && samples[i].date == d ensures samples[i] in OnDate(samples, d) {
        assert init[i] == samples[i];
      }
    }
  }

  /** Every day that occurs in the input has at least one sample, so its mean
      is never the `0` fallback of an empty list. */
  lemma OnDateNonEmpty(samples: seq<Sample>, d: string)
    requires d in Dates(samples)
    ensures OnDate(samples, d) != []
  {
    OnDateSpec(samples, d);
    var i :| 0 <= i < |samples| && Dates(samples)[i] == d;
    assert samples[i] in OnDate(samples, d);
  }

  function Sum(xs: seq<real>): real
  {
    if xs == [] then 0.0 else Sum(xs[..|xs| - 1]) + xs[|xs| - 1]
  }

  /** `sum(temps) / len(temps) if temps else 0`. */
  function Mean(xs: seq<real>): real
  {
    if xs == [] then 0.0 else Sum(xs) / (|xs| as real)
  }

  /** How often each value occurs in `xs`: the count dict the aggregator fills. */
  function CountIn(xs: seq<string>): string -> int
  {
    x => multiset(xs)[x]
  }

  /** `max(counts.items(), key=count)[0] if counts else default`, where `counts`
      is filled in order of first occurrence: the most frequent value, the one
      met first on a tie. */
  function StableMode(xs: seq<string>, default: string): string
  {
    if xs == [] then default
    else
      var keys := Distinct(xs);
      DistinctContents(xs);
      keys[FirstMaxIndex(keys, CountIn(xs))]
  }

  /** `m` is a value of `xs` with the highest count, and on a tie it is the
      one whose first occurrence comes earliest. */
  predicate IsStableMode(xs: seq<string>, m: string)
  {
    m in xs &&
    (forall y :: y in xs ==> multiset(xs)[y] <= multiset(xs)[m]) &&
    (forall y :: y in xs && multiset(xs)[y] == multiset(xs)[m] ==> FirstIndex(xs, m) <= FirstIndex(xs, y))
  }

  /** The count-dict-and-max rule picks the stable mode. */
  lemma StableModeSpec(xs: seq<string>, default: string)
    requires xs != []
    ensures IsStableMode(xs, StableMode(xs, default))
  {
    var keys := Distinct(xs);
    DistinctContents(xs);
    var m := FirstMaxIndex(keys, CountIn(xs));
    var r := keys[m];
    assert r in keys;
    forall y | y in xs
      ensures multiset(xs)[y] <= multiset(xs)[r]
      ensures multiset(xs)[y] == multiset(xs)[r] ==> FirstIndex(xs, r) <= FirstIndex(xs, y)
    {
      var j := FirstIndex(keys, y);
      assert CountIn(xs)(keys[j]) <= CountIn(xs)(keys[m]);
      if multiset(xs)[y] == multiset(xs)[r] && j != m {
        assert !(j < m);
        DistinctFirstSeen(xs, m, j);
      }
    }
  }

  /** The stable mode of a list is unique, so the rule above is a complete
      description of the aggregator's choice. */
  lemma StableModeUnique(xs: seq<string>, m1: string, m2: string)
    requires IsStableMode(xs, m1) && IsStableMode(xs, m2)
    ensures m1 == m2
  {
    assert FirstIndex(xs, m1) == FirstIndex(xs, m2);
  }

  /** An empty list has no mode; the aggregator falls back to the default. */
  lemma StableModeEmpty(default: string)
    ensures StableMode([], default) == default
  {
  }

  /** The lists the aggregator collects for day `d`. */
  function BucketOf(samples: seq<Sample>, d: string): DayBucket
  {
    var g := OnDate(samples, d);
    DayBucket(Temps(g), Conditions(g), Descriptions(g))
  }

  /** The summary of one day built from its lists: mean temperature, most
      common condition (default "Unknown") and most common description (default ""). */
  function Summarize(d: string, b: DayBucket): DailyForecast
  {
    DailyForecast(d, Mean(b.temps), StableMode(b.conditions, "Unknown"), StableMode(b.descriptions, ""))
  }

  function DayForecast(samples: seq<Sample>, d: string): DailyForecast
  {
    Summarize(d, BucketOf(samples, d))
  }

  /** One summary per distinct day, in the order the days first appear. */
  function Aggregate(samples: seq<Sample>): seq<DailyForecast>
  {
    var days := Distinct(Dates(samples));
    seq(|days|, k requires 0 <= k < |days| => DayForecast(samples, days[k]))
  }

  /** The whole of `process_forecast_data`: no `list` key gives no days, a
      malformed sample gives no days at all, otherwise the aggregate. */
  function AggregatePayload(payload: ForecastPayload): seq<DailyForecast>
  {
    match payload
    case None => []
    case Some(items) =>
      match ParseAll(items)
      case None => []
      case Some(samples) => Aggregate(samples)
  }

  /** The count dict after the values `xs` have been counted. */
  function Tally(xs: seq<string>): map<string, int>
  {
    map k | k in xs :: multiset(xs)[k]
  }

  /** `counts.get(k, 0)` as a key function for `max`. */
  function CountOr0(counts: map<string, int>): string -> int
  {
    k => if k in counts then counts[k] else 0
  }

  /** The mode read off the finished count dict and its insertion-ordered keys. */
  lemma ModeFromTally(xs: seq<string>, default: string)
    ensures Distinct(xs) == [] <==> xs == []
    ensures xs != [] ==> StableMode(xs, default) == Distinct(xs)[FirstMaxIndex(Distinct(xs), CountOr0(Tally(xs)))]
  {
    DistinctContents(xs);
    if xs != [] {
      assert xs[0] in Distinct(xs);
      FirstMaxIndexCongruent(Distinct(xs), CountOr0(Tally(xs)), CountIn(xs));
    }
  }

  /** The count-dict-and-max computation of the most common value. */
  method MostCommon(xs: seq<string>, default: string) returns (r: string)
    ensures r == StableMode(xs, default)
  {
    var keys, counts := CountValues(xs);
    ModeFromTally(xs, default);
    if keys == [] {
      r := default;
    } else {
      r := keys[FirstMaxIndex(keys, CountOr0(counts))];
    }
  }

  /** The counting loop: `counts[v] = counts.get(v, 0) + 1` for each value in
      turn; `keys` is the dict's insertion order. */
  method CountValues(xs: seq<string>) returns (keys: seq<string>, counts: map<string, int>)
    ensures keys == Distinct(xs)
    ensures counts == Tally(xs)
  {
    counts := map[];
    keys := [];
    ghost var seen: seq<string> := [];
    var i := 0;
    while i < |xs|
      invariant 0 <= i <= |xs|
      invariant seen == xs[..i]
      invariant keys == Distinct(seen)
      invariant counts == Tally(seen)
    {
      var x := xs[i];
      CountLoopStep(seen, x, keys, counts);
      if x in counts {
        counts := counts[x := counts[x] + 1];
      } else {
        keys := keys + [x];
        counts := counts[x := 1];
      }
      seen := seen + [x];
      assert seen == xs[..i + 1];
      i := i + 1;
    }
    assert seen == xs;
  }

  /** One iteration of the counting loop, in terms of the loop's own state. */
  lemma CountLoopStep(seen: seq<string>, x: string, keys: seq<string>, counts: map<string, int>)
    requires keys == Distinct(seen) && counts == Tally(seen)
    ensures x in counts <==> x in seen
    ensures x in counts ==> Distinct(seen + [x]) == keys && Tally(seen + [x]) == counts[x := counts[x] + 1]
    ensures x !in counts ==> Distinct(seen + [x]) == keys + [x] && Tally(seen + [x]) == counts[x := 1]
  {
    DistinctSnoc(seen, x);
    TallyStep(seen, x);
  }

  /** One step of the counting loop on the dict: the new value's count grows
      by one (from nothing to 1 when it is new), the others stay. */
  lemma TallyStep(pre: seq<string>, x: string)
    ensures Tally(pre + [x]) == Tally(pre)[x := if x in pre then Tally(pre)[x] + 1 else 1]
  {
    var lhs := Tally(pre + [x]);
    var rhs := Tally(pre)[x := if x in pre then Tally(pre)[x] + 1 else 1];
    assert multiset(pre + [x]) == multiset(pre) + multiset{x};
    forall k | k in lhs ensures k in rhs && lhs[k] == rhs[k] {
      if k != x {
        assert k in pre;
      }
    }
    assert lhs.Keys == rhs.Keys;
  }

  /** Bucket `b` of day `d` after sample `s` is seen: the three appends of one loop iteration. */
  function Grow(b: DayBucket, s: Sample, d: string): DayBucket
  {
    if s.date == d then DayBucket(b.temps + [s.temp], b.conditions + [s.condition], b.descriptions + [s.description])
    else b
  }

  lemma BucketSnoc(samples: seq<Sample>, s: Sample, d: string)
    ensures BucketOf(samples + [s], d) == Grow(BucketOf(samples, d), s, d)
  {
    assert (samples + [s])[..|samples|] == samples;
    var g := OnDate(samples, d);
    if s.date == d {
      assert Temps(g + [s]) == Temps(g) + [s.temp];
      assert Conditions(g + [s]) == Conditions(g) + [s.condition];
      assert Descriptions(g + [s]) == Descriptions(g) + [s.description];
    }
  }

  /** The dict of per-day lists after the samples `parsed` have been seen. */
  function Buckets(parsed: seq<Sample>): map<string, DayBucket>
  {
    map d | d in Dates(parsed) :: BucketOf(parsed, d)
  }

  /** A day none of whose samples has been seen has empty lists. */
  lemma {:induction false} AbsentDayEmpty(samples: seq<Sample>, d: string)
    requires forall i :: 0 <= i < |samples| ==> samples[i].date != d
    ensures BucketOf(samples, d) == DayBucket([], [], [])
  {
    if samples != [] {
      AbsentDayEmpty(samples[..|samples| - 1], d);
    }
  }

  /** One step of the grouping loop on the day list: a day is appended when
      it is new. */
  lemma DaysStep(parsed: seq<Sample>, s: Sample)
    ensures Distinct(Dates(parsed + [s])) ==
      if s.date in Dates(parsed) then Distinct(Dates(parsed)) else Distinct(Dates(parsed)) + [s.date]
  {
    assert Dates(parsed + [s]) == Dates(parsed) + [s.date];
    DistinctSnoc(Dates(parsed), s.date);
    DistinctContents(Dates(parsed));
  }

  /** One step of the grouping loop on the dict: a new day starts with empty
      lists, and only the sample's own day's lists grow. */
  lemma BucketsStep(parsed: seq<Sample>, s: Sample)
    ensures Buckets(parsed + [s]) ==
      Buckets(parsed)[s.date := Grow(if s.date in Dates(parsed) then BucketOf(parsed, s.date) else DayBucket([], [], []), s, s.date)]
  {
    assert Dates(parsed + [s]) == Dates(parsed) + [s.date];
    if s.date !in Dates(parsed) {
      AbsentDayEmpty(parsed, s.date);
    }
    var lhs := Buckets(parsed + [s]);
    var rhs := Buckets(parsed)[s.date := Grow(if s.date in Dates(parsed) then BucketOf(parsed, s.date) else DayBucket([], [], []), s, s.date)];
    forall d | d in lhs ensures d in rhs && lhs[d] == rhs[d] {
      BucketSnoc(parsed, s, d);
    }
    assert lhs.Keys == rhs.Keys;
  }

  /** One iteration of the grouping loop, in terms of the loop's own state. */
  lemma GroupLoopStep(parsed: seq<Sample>, s: Sample, days: seq<string>, buckets: map<string, DayBucket>)
    requires days == Distinct(Dates(parsed)) && buckets == Buckets(parsed)
    ensures s.date in buckets <==> s.date in Dates(parsed)
    ensures s.date in buckets ==>
      Distinct(Dates(parsed + [s])) == days && Buckets(parsed + [s]) == buckets[s.date := Grow(buckets[s.date], s, s.date)]
    ensures s.date !in buckets ==>
      Distinct(Dates(parsed + [s])) == days + [s.date] &&
      Buckets(parsed + [s]) == buckets[s.date := Grow(DayBucket([], [], []), s, s.date)]
  {
    DaysStep(parsed, s);
    BucketsStep(parsed, s);
  }

  /** `process_forecast_data`: group the samples into per-day lists in a dict
      that keeps first-seen order, then summarise each day. */
  method ProcessForecastData(payload: ForecastPayload) returns (result: seq<DailyForecast>)
    ensures result == AggregatePayload(payload)
  {
    if payload.None? {
      return [];
    }
    var ok, days, buckets := GroupByDay(payload.value);
    if !ok {
      return [];
    }
    result := SummarizeDays(days, buckets);
    SummariesAreAggregate(ParseAll(payload.value).value, days, buckets, result);
  }

  /** The first loop of `process_forecast_data`: the dict of per-day lists,
      whose keys, in insertion order, are `days`; `ok` is false when a sample
      raised KeyError or IndexError. */
  method GroupByDay(items: seq<RawSample>) returns (ok: bool, days: seq<string>, buckets: map<string, DayBucket>)
    ensures ok <==> ParseAll(items).Some?
    ensures ok ==> days == Distinct(Dates(ParseAll(items).value))
    ensures ok ==> forall d :: d in days ==> d in buckets && buckets[d] == BucketOf(ParseAll(items).value, d)
  {
    buckets := map[];
    days := [];
    ghost var parsed: seq<Sample> := [];
    var i := 0;
    while i < |items|
      invariant 0 <= i <= |items|
      invariant ParseAll(items[..i]) == Some(parsed)
      invariant days == Distinct(Dates(parsed))
      invariant buckets == Buckets(parsed)
    {
      var sample := ParseSample(items[i]);
      assert items[..i + 1] == items[..i] + [items[i]];
      ParseAllSnoc(items[..i], items[i]);
      if sample.None? {
        MalformedSampleEmptiesResult(items, i);
        return false, [], map[];
      }
      var s := sample.value;
      GroupLoopStep(parsed, s, days, buckets);
      if s.date in buckets {
        buckets := buckets[s.date := Grow(buckets[s.date], s, s.date)];
      } else {
        days := days + [s.date];
        buckets := buckets[s.date := Grow(DayBucket([], [], []), s, s.date)];
      }
      parsed := parsed + [s];
      i := i + 1;
    }
    assert items[..i] == items;
    ok := true;
    DistinctContents(Dates(parsed));
  }

  lemma SummariesAreAggregate(parsed: seq<Sample>, days: seq<string>, buckets: map<string, DayBucket>,
                              result: seq<DailyForecast>)
    requires days == Distinct(Dates(parsed))
    requires forall d :: d in days ==> d in buckets && buckets[d] == BucketOf(parsed, d)
    requires |result| == |days|
    requires forall m :: 0 <= m < |days| ==> result[m] == Summarize(days[m], buckets[days[m]])
    ensures result == Aggregate(parsed)
  {
  }

  /** The second loop of `process_forecast_data`: one summary per day, in the
      dict's insertion order. */
  method SummarizeDays(days: seq<string>, buckets: map<string, DayBucket>) returns (result: seq<DailyForecast>)
    requires forall d :: d in days ==> d in buckets
    ensures |result| == |days|
    ensures forall m :: 0 <= m < |days| ==> result[m] == Summarize(days[m], buckets[days[m]])
  {
    result := [];
    var k := 0;
    while k < |days|
      invariant 0 <= k <= |days|
      invariant |result| == k
      invariant forall m :: 0 <= m < k ==> result[m] == Summarize(days[m], buckets[days[m]])
    {
      var f := SummarizeDay(days[k], buckets[days[k]]);
      result := result + [f];
      k := k + 1;
    }
  }

  /** The body of the second loop: average temperature and the two most common values. */
  method SummarizeDay(d: string, b: DayBucket) returns (f: DailyForecast)
    ensures f == Summarize(d, b)
  {
    var average := if |b.temps| > 0 then Sum(b.temps) / (|b.temps| as real) else 0.0;
    var condition := MostCommon(b.conditions, "Unknown");
    var description := MostCommon(b.descriptions, "");
    f := DailyForecast(d, average, condition, description);
  }

  /** The dates of a list of daily forecasts. */
  function ForecastDates(fs: seq<DailyForecast>): (r: seq<string>)
    ensures |r| == |fs| && forall k :: 0 <= k < |fs| ==> r[k] == fs[k].date
  {
    seq(|fs|, k requires 0 <= k < |fs| => fs[k].date)
  }

  /** Some sample of day `d` reports condition `c`. */
  predicate Reported(samples: seq<Sample>, d: string, c: string)
  {
    exists i :: 0 <= i < |samples| && samples[i].date == d && samples[i].condition == c
  }

  /** One forecast per day that occurs among the samples, no day twice. */
  lemma AggregateDays(samples: seq<Sample>)
    ensures ForecastDates(Aggregate(samples)) == Distinct(Dates(samples))
    ensures forall d :: d in ForecastDates(Aggregate(samples)) <==> d in Dates(samples)
    ensures NoDuplicates(ForecastDates(Aggregate(samples)))
  {
    DistinctContents(Dates(samples));
    assert ForecastDates(Aggregate(samples)) == Distinct(Dates(samples));
  }

  /** The days come in the order in which each first occurs among the samples. */
  lemma AggregateFirstSeenOrder(samples: seq<Sample>, k: nat, l: nat)
    requires k < l < |Aggregate(samples)|
    ensures Aggregate(samples)[k].date in Dates(samples) && Aggregate(samples)[l].date in Dates(samples)
    ensures FirstIndex(Dates(samples), Aggregate(samples)[k].date) < FirstIndex(Dates(samples), Aggregate(samples)[l].date)
  {
    DistinctFirstSeen(Dates(samples), k, l);
  }

  /** Each day's forecast: the day has samples, its temperature is their
      mean, and its condition and description are the stable modes of that
      day's conditions and descriptions, so the condition is one a sample of
      that day reported. */
  lemma AggregateDay(samples: seq<Sample>, k: nat)
    requires k < |Aggregate(samples)|
    ensures var f := Aggregate(samples)[k];
      var g := OnDate(samples, f.date);
      g != [] &&
      f.temperature == Sum(Temps(g)) / (|g| as real) &&
      IsStableMode(Conditions(g), f.condition) &&
      IsStableMode(Descriptions(g), f.description) &&
      Reported(samples, f.date, f.condition)
  {
    var days := Distinct(Dates(samples));
    DistinctContents(Dates(samples));
    var d := days[k];
    var g := OnDate(samples, d);
    OnDateNonEmpty(samples, d);
    StableModeSpec(Conditions(g), "Unknown");
    StableModeSpec(Descriptions(g), "");
    var c := StableMode(Conditions(g), "Unknown");
    var j :| 0 <= j < |g| && Conditions(g)[j] == c;
    OnDateSpec(samples, d);
    assert g[j] in g;
    assert multiset(samples)[g[j]] > 0;
    var i :| 0 <= i < |samples| && samples[i] == g[j];
    assert samples[i].date == d && samples[i].condition == c;
  }

  /** `dt_txt` of the form "<date> <time>" yields its date part. */
  lemma {:induction false} DatePartOfTimestamp(date: string, time: string)
    requires ' ' !in date
    ensures DatePart(date + " " + time) == date
  {
    if date != [] {
      assert (date + " " + time)[1..] == date[1..] + " " + time;
      DatePartOfTimestamp(date[1..], time);
    }
  }

  /** A well-formed sample stamped "<date> <time>". */
  function Reading(date: string, time: string, temp: real, main: string, description: string): RawSample
  {
    RawSample(Some(date + " " + time), Some(temp), Some([WeatherEntry(Some(main), Some(description))]))
  }

  /** A well-formed sample parses to its date, temperature, condition and description. */
  lemma ParseReading(date: string, time: string, temp: real, main: string, description: string)
    requires ' ' !in date
    ensures ParseSample(Reading(date, time, temp, main, description)) == Some(Sample(date, temp, main, description))
  {
    DatePartOfTimestamp(date, time);
  }

  /** Parsing one more sample. */
  lemma ParseAllSnoc(items: seq<RawSample>, x: RawSample)
    ensures ParseAll(items + [x]) ==
      if ParseAll(items).Some? && ParseSample(x).Some? then Some(ParseAll(items).value + [ParseSample(x).value]) else None
  {
    assert (items + [x])[..|items|] == items;
  }

  /** The shape of the service's own unit test, for any two distinct days:
      two samples on the first day at 20.0 and 18.0 reporting "Clear", one on
      the second at 22.0 reporting "Clouds" give two forecasts, the first at
      the mean 19.0. */
  lemma TwoDayExample(day1: string, day2: string, time1: string, time2: string, time3: string)
    requires ' ' !in day1 && ' ' !in day2 && day1 != day2
    ensures AggregatePayload(Some([
        Reading(day1, time1, 20.0, "Clear", "clear sky"),
        Reading(day1, time2, 18.0, "Clear", "clear sky"),
        Reading(day2, time3, 22.0, "Clouds", "scattered clouds")])) == [
      DailyForecast(day1, 19.0, "Clear", "clear sky"),
      DailyForecast(day2, 22.0, "Clouds", "scattered clouds")]
  {
    var r0 := Reading(day1, time1, 20.0, "Clear", "clear sky");
    var r1 := Reading(day1, time2, 18.0, "Clear", "clear sky");
    var r2 := Reading(day2, time3, 22.0, "Clouds", "scattered clouds");
    var s0 := Sample(day1, 20.0, "Clear", "clear sky");
    var s1 := Sample(day1, 18.0, "Clear", "clear sky");
    var s2 := Sample(day2, 22.0, "Clouds", "scattered clouds");
    ParseReading(day1, time1, 20.0, "Clear", "clear sky");
    ParseReading(day1, time2, 18.0, "Clear", "clear sky");
    ParseReading(day2, time3, 22.0, "Clouds", "scattered clouds");
    ExampleParses(r0, r1, r2, s0, s1, s2);
    ExampleAggregate([s0, s1, s2]);
  }

  /** The service's unit test itself, with its dates. */
  lemma ServiceTestExample()
    ensures AggregatePayload(Some([
        Reading("2023-01-01", "00:00:00", 20.0, "Clear", "clear sky"),
        Reading("2023-01-01", "03:00:00", 18.0, "Clear", "clear sky"),
        Reading("2023-01-02", "00:00:00", 22.0, "Clouds", "scattered clouds")])) == [
      DailyForecast("2023-01-01", 19.0, "Clear", "clear sky"),
      DailyForecast("2023-01-02", 22.0, "Clouds", "scattered clouds")]
  {
    TwoDayExample("2023-01-01", "2023-01-02", "00:00:00", "03:00:00", "00:00:00");
  }

  /** Two samples of one day that agree on condition and description, then
      one sample of another day: two forecasts, the first at the mean of its
      two temperatures. */
  lemma ExampleAggregate(ss: seq<Sample>)
    requires |ss| == 3 && ss[0].date == ss[1].date != ss[2].date
    requires ss[0].condition == ss[1].condition && ss[0].description == ss[1].description
    ensures Aggregate(ss) == [
      DailyForecast(ss[0].date, (ss[0].temp + ss[1].temp) / 2.0, ss[0].condition, ss[0].description),
      DailyForecast(ss[2].date, ss[2].temp, ss[2].condition, ss[2].description)]
  {
    ExampleDates(ss);
    AggregateOfTwoDays(ss, ss[0].date, ss[2].date);
    ExampleFirstDay(ss);
    ExampleSecondDay(ss);
  }

  lemma AggregateOfTwoDays(samples: seq<Sample>, a: string, b: string)
    requires Distinct(Dates(samples)) == [a, b]
    ensures Aggregate(samples) == [Summarize(a, BucketOf(samples, a)), Summarize(b, BucketOf(samples, b))]
  {
    AggregateAt(samples, 0);
    AggregateAt(samples, 1);
  }

  lemma AggregateAt(samples: seq<Sample>, k: nat)
    requires k < |Distinct(Dates(samples))|
    ensures |Aggregate(samples)| == |Distinct(Dates(samples))|
    ensures Aggregate(samples)[k] == DayForecast(samples, Distinct(Dates(samples))[k])
  {
  }

  lemma ExampleDates(ss: seq<Sample>)
    requires |ss| == 3 && ss[0].date == ss[1].date != ss[2].date
    ensures Distinct(Dates(ss)) == [ss[0].date, ss[2].date]
  {
    assert Dates(ss) == [ss[0].date, ss[0].date, ss[2].date];
    ExampleDays(ss[0].date, ss[2].date);
  }

  lemma ExampleFirstDay(ss: seq<Sample>)
    requires |ss| == 3 && ss[0].date == ss[1].date != ss[2].date
    requires ss[0].condition == ss[1].condition && ss[0].description == ss[1].description
    ensures Summarize(ss[0].date, BucketOf(ss, ss[0].date)) ==
      DailyForecast(ss[0].date, (ss[0].temp + ss[1].temp) / 2.0, ss[0].condition, ss[0].description)
  {
    var g := ss[..2];
    ExampleBuckets(ss);
    assert BucketOf(ss, ss[0].date) == DayBucket(Temps(g), Conditions(g), Descriptions(g));
    FirstDaySummary(ss[0].date, g);
  }

  lemma ExampleSecondDay(ss: seq<Sample>)
    requires |ss| == 3 && ss[0].date == ss[1].date != ss[2].date
    ensures Summarize(ss[2].date, BucketOf(ss, ss[2].date)) ==
      DailyForecast(ss[2].date, ss[2].temp, ss[2].condition, ss[2].description)
  {
    var g := ss[2..];
    ExampleBuckets(ss);
    assert BucketOf(ss, ss[2].date) == DayBucket(Temps(g), Conditions(g), Descriptions(g));
    SecondDaySummary(ss[2].date, g);
  }

  /** A list holding one value throughout has that value as its mode. */
  lemma ModeOfConstant(xs: seq<string>, v: string, default: string)
    requires xs != [] && forall i :: 0 <= i < |xs| ==> xs[i] == v
    ensures StableMode(xs, default) == v
  {
    StableModeSpec(xs, default);
  }

  lemma FirstDaySummary(d: string, g: seq<Sample>)
    requires |g| == 2 && g[0].condition == g[1].condition && g[0].description == g[1].description
    ensures Summarize(d, DayBucket(Temps(g), Conditions(g), Descriptions(g))) ==
      DailyForecast(d, (g[0].temp + g[1].temp) / 2.0, g[0].condition, g[0].description)
  {
    MeanOfTwo(Temps(g));
    ModeOfConstant(Conditions(g), g[0].condition, "Unknown");
    ModeOfConstant(Descriptions(g), g[0].description, "");
  }

  lemma SecondDaySummary(d: string, g: seq<Sample>)
    requires |g| == 1
    ensures Summarize(d, DayBucket(Temps(g), Conditions(g), Descriptions(g))) ==
      DailyForecast(d, g[0].temp, g[0].condition, g[0].description)
  {
    MeanOfOne(Temps(g));
    ModeOfConstant(Conditions(g), g[0].condition, "Unknown");
    ModeOfConstant(Descriptions(g), g[0].description, "");
  }

  lemma MeanOfOne(ts: seq<real>)
    requires |ts| == 1
    ensures Mean(ts) == ts[0]
  {
    assert ts[..0] == [];
    assert Sum(ts) == ts[0];
  }

  lemma MeanOfTwo(ts: seq<real>)
    requires |ts| == 2
    ensures Mean(ts) == (ts[0] + ts[1]) / 2.0
  {
    assert ts[..1][..0] == [];
    assert Sum(ts[..1]) == ts[0];
    assert Sum(ts) == ts[0] + ts[1];
  }

  lemma ExampleParses(r0: RawSample, r1: RawSample, r2: RawSample, s0: Sample, s1: Sample, s2: Sample)
    requires ParseSample(r0) == Some(s0) && ParseSample(r1) == Some(s1) && ParseSample(r2) == Some(s2)
    ensures ParseAll([r0, r1, r2]) == Some([s0, s1, s2])
  {
    ParseAllSnoc([], r0);
    assert [] + [r0] == [r0];
    ParseAllSnoc([r0], r1);
    assert [r0] + [r1] == [r0, r1];
    ParseAllSnoc([r0, r1], r2);
    assert [r0, r1] + [r2] == [r0, r1, r2];
    assert [] + [s0] == [s0] && [s0] + [s1] == [s0, s1] && [s0, s1] + [s2] == [s0, s1, s2];
  }

  /** Two samples of one day and one of another give the two days, in order. */
  lemma ExampleDays(a: string, b: string)
    requires a != b
    ensures Distinct([a, a, b]) == [a, b]
  {
    DistinctSnoc([], a);
    assert [] + [a] == [a];
    DistinctSnoc([a], a);
    assert [a] + [a] == [a, a];
    DistinctSnoc([a, a], b);
    assert [a, a] + [b] == [a, a, b];
  }

  lemma ExampleBuckets(ss: seq<Sample>)
    requires |ss| == 3 && ss[0].date == ss[1].date != ss[2].date
    ensures OnDate(ss, ss[0].date) == ss[..2]
    ensures OnDate(ss, ss[2].date) == ss[2..]
  {
    assert ss[..2][..1] == ss[..1] && ss[..1][..0] == [] && ss[..3][..2] == ss[..2] && ss[..3] == ss;
    assert OnDate(ss[..1], ss[0].date) == [ss[0]] && OnDate(ss[..1], ss[2].date) == [];
    assert OnDate(ss[..2], ss[0].date) == ss[..2] && OnDate(ss[..2], ss[2].date) == [];
  }
}
