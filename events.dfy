/** The analyzers of Assignment/services/event_service.py that are built on
    the scorer and on `get_weather_data`: the trend over a 5-day/3-hour
    forecast, the comparison of several locations, the search for an
    alternative date, and the weather-change alert. */
module Events {
  import opened Wrappers
  import opened Stats
  import opened Sorting
  import opened Weather
  import opened Scoring
  import opened Text

  /** The fields of a stored event the analyzers read. */
  datatype Event = Event(name: string, location: string, date: Day, eventType: string)

  // ---------------------------------------------------------------------
  // Trends

  datatype Trend = Improving | Worsening | Stable

  /** `{"trend", "message", "daily_scores"}`; `enoughData` is false for the
      "Not enough data for trend analysis." message. */
  datatype TrendReport = TrendReport(trend: Trend, enoughData: bool, dailyScores: map<Day, real>)

  /** The `{"error", "status_code"}` the 5-day/3-hour forecast request
      reports when it fails. */
  datatype ForecastFailure = ForecastFailure(message: string, statusCode: int)

  datatype TrendOutcome =
    | TrendEventNotFound
    | ForecastUnavailable(failure: ForecastFailure)
    | NoForecastData
    | Trends(report: TrendReport)

  /** The weather dictionary built for one three-hour entry; an entry without
      a `weather` list reads "N/A". */
  function ItemWeather(item: ForecastItem): (w: WeatherInfo)
    ensures w.WeatherInfo? && w.precipitation == Some(PrecipitationOf(item.rain3h, item.snow3h))
    ensures TemperatureReading(w) == Some(item.temp) && WindReading(w) == Some(item.windSpeed)
    ensures item.weather != [] ==> w.main == Some(item.weather[0].main) && w.description == Some(item.weather[0].description)
  {
    WeatherInfo(
      temperature := Some(item.temp), humidity := Some(item.humidity),
      description := Some(if item.weather != [] then item.weather[0].description else "N/A"),
      main := Some(if item.weather != [] then item.weather[0].main else "N/A"),
      windSpeed := Some(item.windSpeed),
      precipitation := Some(PrecipitationOf(item.rain3h, item.snow3h)))
  }

  /** The score of one entry: scoring never fails on it. */
  function ItemScore(eventType: string, item: ForecastItem): (s: int)
    ensures 0 <= s <= 100
    ensures SuitabilityScore(eventType, Some(ItemWeather(item))) == Ok(Rating(LabelFor(s), s))
  {
    SuitabilityScore(eventType, Some(ItemWeather(item))).value.score
  }

  /** The distinct dates of the entries. */
  function DaysOf(items: seq<ForecastItem>): (days: set<Day>)
    ensures forall i :: 0 <= i < |items| ==> items[i].day in days
  {
    if items == [] then {}
    else
      var init := items[..|items| - 1];
      assert forall i :: 0 <= i < |init| ==> init[i] == items[i];
      DaysOf(init) + {items[|items| - 1].day}
  }

  /** Appending one entry adds its date. */
  lemma DaysOfStep(items: seq<ForecastItem>, item: ForecastItem)
    ensures DaysOf(items + [item]) == DaysOf(items) + {item.day}
  {
    assert (items + [item])[..|items|] == items;
  }

  /** The scores of the entries dated `d`, in order. */
  function ScoresOn(eventType: string, items: seq<ForecastItem>, d: Day): (scores: seq<int>)
    ensures |scores| > 0 <==> d in DaysOf(items)
    ensures forall j :: 0 <= j < |scores| ==> 0 <= scores[j] <= 100
  {
    if items == [] then []
    else
      var last := items[|items| - 1];
      ScoresOn(eventType, items[..|items| - 1], d) + (if last.day == d then [ItemScore(eventType, last)] else [])
  }

  /** `daily_suitability`: each date mapped to its entries' scores. */
  function DailyScores(eventType: string, items: seq<ForecastItem>): (m: map<Day, seq<int>>)
    ensures m.Keys == DaysOf(items)
    ensures forall d :: d in m ==> |m[d]| > 0
  {
    map d | d in DaysOf(items) :: ScoresOn(eventType, items, d)
  }

  /** Appending one entry extends only its own date's score list. */
  lemma ScoresOnStep(eventType: string, items: seq<ForecastItem>, item: ForecastItem, d: Day)
    ensures ScoresOn(eventType, items + [item], d)
            == ScoresOn(eventType, items, d) + (if item.day == d then [ItemScore(eventType, item)] else [])
  {
    assert (items + [item])[..|items|] == items;
  }

  /** Appending one entry changes one date's score list at most: its own
      date's list gains the entry's score at the end. */
  lemma DailyScoresStepAt(eventType: string, items: seq<ForecastItem>, item: ForecastItem, d: Day)
    requires d in DaysOf(items + [item])
    ensures var before := DailyScores(eventType, items);
            DailyScores(eventType, items + [item])[d]
            == if d == item.day then (if d in before then before[d] else []) + [ItemScore(eventType, item)] else before[d]
  {
    DaysOfStep(items, item);
    ScoresOnStep(eventType, items, item, d);
  }

  /** Appending one entry adds its score to the end of its date's list,
      creating the list when the date is new. */
  lemma DailyScoresStep(eventType: string, items: seq<ForecastItem>, item: ForecastItem)
    ensures var before := DailyScores(eventType, items);
            DailyScores(eventType, items + [item])
            == before[item.day := (if item.day in before then before[item.day] else []) + [ItemScore(eventType, item)]]
  {
    var before := DailyScores(eventType, items);
    var after := DailyScores(eventType, items + [item]);
    DaysOfStep(items, item);
    var expected := before[item.day := (if item.day in before then before[item.day] else []) + [ItemScore(eventType, item)]];
    assert after.Keys == expected.Keys;
    forall d | d in after
      ensures after[d] == expected[d]
    {
      DailyScoresStepAt(eventType, items, item, d);
    }
  }

  /** `sum(scores) / len(scores)`. */
  function Average(scores: seq<int>): real
    requires |scores| > 0
  {
    Mean(seq(|scores|, i requires 0 <= i < |scores| => scores[i] as real))
  }

  /** `average_daily_scores`. */
  function DailyAverages(eventType: string, items: seq<ForecastItem>): (m: map<Day, real>)
    ensures m.Keys == DaysOf(items)
  {
    var daily := DailyScores(eventType, items);
    map d | d in daily :: Average(daily[d])
  }

  /** Every per-day average lies in [0, 100]. */
  lemma DailyAveragesWithin(eventType: string, items: seq<ForecastItem>)
    ensures forall d :: d in DailyAverages(eventType, items) ==> 0.0 <= DailyAverages(eventType, items)[d] <= 100.0
  {
    var daily := DailyScores(eventType, items);
    forall d | d in daily
      ensures 0.0 <= Average(daily[d]) <= 100.0
    {
      var scores := daily[d];
      MeanWithin(seq(|scores|, i requires 0 <= i < |scores| => scores[i] as real), 0.0, 100.0);
    }
  }

  /** `sorted_dates[0]`: the earliest date. */
  function Earliest(items: seq<ForecastItem>): (d: Day)
    requires items != []
    ensures d in DaysOf(items) && forall e :: e in DaysOf(items) ==> d <= e
  {
    var last := items[|items| - 1].day;
    if |items| == 1 then last
    else
      var rest := Earliest(items[..|items| - 1]);
      if last < rest then last else rest
  }

  /** `sorted_dates[-1]`: the latest date. */
  function Latest(items: seq<ForecastItem>): (d: Day)
    requires items != []
    ensures d in DaysOf(items) && forall e :: e in DaysOf(items) ==> e <= d
  {
    var last := items[|items| - 1].day;
    if |items| == 1 then last
    else
      var rest := Latest(items[..|items| - 1]);
      if last > rest then last else rest
  }

  /** The trend rule: more than 10 points up is Improving, more than 10 down
      is Worsening, anything within 10 either way (10 included) is Stable. */
  function TrendOf(first: real, last: real): (t: Trend)
    ensures t == Improving <==> last > first + 10.0
    ensures t == Worsening <==> last < first - 10.0
    ensures t == Stable <==> first - 10.0 <= last <= first + 10.0
  {
    if last > first + 10.0 then Improving
    else if last < first - 10.0 then Worsening
    else Stable
  }

  /** `get_weather_trends` once the forecast list is in hand. */
  function TrendsOf(eventType: string, items: seq<ForecastItem>): TrendOutcome
  {
    if items == [] then NoForecastData
    else
      var averages := DailyAverages(eventType, items);
      if |averages| < 2 then Trends(TrendReport(Stable, false, averages))
      else Trends(TrendReport(TrendOf(averages[Earliest(items)], averages[Latest(items)]), true, averages))
  }

  /** A non-empty forecast always gives a report holding one average per
      distinct date, each in [0, 100]. */
  lemma TrendReportAverages(eventType: string, items: seq<ForecastItem>)
    requires items != []
    ensures TrendsOf(eventType, items).Trends?
    ensures var averages := TrendsOf(eventType, items).report.dailyScores;
            && averages == DailyAverages(eventType, items)
            && averages.Keys == DaysOf(items)
            && (forall d :: d in averages ==> 0.0 <= averages[d] <= 100.0)
  {
    DailyAveragesWithin(eventType, items);
  }

  /** Fewer than two distinct dates give Stable; otherwise the earliest and
      the latest date's averages decide the trend. */
  lemma TrendReportRule(eventType: string, items: seq<ForecastItem>)
    requires items != []
    ensures TrendsOf(eventType, items).Trends?
    ensures var report := TrendsOf(eventType, items).report;
            && (report.enoughData <==> |DaysOf(items)| >= 2)
            && (!report.enoughData ==> report.trend == Stable)
            && (report.enoughData ==>
                  var first, last := report.dailyScores[Earliest(items)], report.dailyScores[Latest(items)];
                  && (report.trend == Improving <==> last > first + 10.0)
                  && (report.trend == Worsening <==> last < first - 10.0)
                  && (report.trend == Stable <==> first - 10.0 <= last <= first + 10.0))
  {
    var averages := DailyAverages(eventType, items);
    assert |averages| == |averages.Keys|;
  }

  // ---------------------------------------------------------------------
  // Comparing locations

  /** Why a location has no suitability. */
  datatype Failure =
    | DataUnavailable            // "Weather data not available for the specified date range."
    | ApiFailure(error: WeatherError)
    | UnexpectedFailure          // any other exception, here the scorer's TypeError

  /** One entry of the comparison: a rated location or an error, never both. */
  datatype Comparison =
    | Rated(location: string, date: Day, weather: WeatherInfo, suitability: Rating)
    | Failed(location: string, date: Day, failure: Failure, statusCode: Option<int>)

  /** `e.status_code if hasattr(e, 'status_code') else 500`. */
  function StatusCode(e: WeatherError): int
  {
    match e
    case InvalidLocationError => 404
    case RateLimitExceededError => 429
    case OpenWeatherMapDownError => 500
    case WeatherApiError => 500
  }

  /** The body of the comparison loop for one location. */
  function CompareEntry(location: string, date: Day, eventType: string, got: Result<Option<WeatherInfo>, WeatherError>): (c: Comparison)
    ensures c.location == location && c.date == date
    ensures c.Rated? <==> got.Ok? && Truthy(got.value) && SuitabilityScore(eventType, got.value).Ok?
    ensures c.Rated? ==> got == Ok(Some(c.weather)) && SuitabilityScore(eventType, got.value) == Ok(c.suitability)
    ensures c.Rated? ==> 0 <= c.suitability.score <= 100
    ensures got.Err? ==> c == Failed(location, date, ApiFailure(got.error), Some(StatusCode(got.error)))
    ensures got.Ok? && !Truthy(got.value) ==> c == Failed(location, date, DataUnavailable, None)
    ensures got.Ok? && Truthy(got.value) && SuitabilityScore(eventType, got.value).Err? ==>
              c == Failed(location, date, UnexpectedFailure, Some(500))
  {
    match got
    case Err(e) => Failed(location, date, ApiFailure(e), Some(StatusCode(e)))
    case Ok(w) =>
      if !Truthy(w) then Failed(location, date, DataUnavailable, None)
      else
        match SuitabilityScore(eventType, w)
        case Ok(rating) => Rated(location, date, w.value, rating)
        case Err(_) => Failed(location, date, UnexpectedFailure, Some(500))
  }

  /** The status code an error entry records: 404 for an unknown location,
      429 for the rate limit, 500 for the service being down, and the
      fallback 500 for a plain WeatherAPIError, which has no `status_code`. */
  lemma CompareErrorCodes(location: string, date: Day, eventType: string)
    ensures CompareEntry(location, date, eventType, Err(InvalidLocationError)).statusCode == Some(404)
    ensures CompareEntry(location, date, eventType, Err(RateLimitExceededError)).statusCode == Some(429)
    ensures CompareEntry(location, date, eventType, Err(OpenWeatherMapDownError)).statusCode == Some(500)
    ensures CompareEntry(location, date, eventType, Err(WeatherApiError)).statusCode == Some(500)
  {
  }

  /** The sort key: the score, or -1 for an error entry. */
  function ComparisonKey(c: Comparison): int
  {
    if c.Rated? then c.suitability.score else -1
  }

  /** The items a loop collected, with the cache it left behind and the
      requests it issued. */
  datatype Batch<T> = Batch(items: seq<T>, cache: Cache, issued: seq<Request>)

  /** The comparison loop before sorting: one `get_weather_data` per
      location, in order, each seeing the cache the previous one left. */
  function CompareBatch(cache: Cache, locations: seq<string>, date: Day, eventType: string,
                        now: Timestamp, today: Day, net: Network): (b: Batch<Comparison>)
    ensures |b.items| == |locations|
    ensures forall i :: 0 <= i < |locations| ==> b.items[i].location == locations[i] && b.items[i].date == date
    ensures forall i :: 0 <= i < |locations| && b.items[i].Rated? ==> 0 <= b.items[i].suitability.score <= 100
  {
    if locations == [] then Batch([], cache, [])
    else
      var prior := CompareBatch(cache, locations[..|locations| - 1], date, eventType, now, today, net);
      var got := Retrieve(prior.cache, locations[|locations| - 1], date, now, today, net);
      var entry := CompareEntry(locations[|locations| - 1], date, eventType, got.result);
      Batch(prior.items + [entry], got.cache, prior.issued + got.issued)
  }

  /** One more location extends the batch by its entry, hands on the cache
      its lookup leaves and appends the requests that lookup issues. */
  lemma CompareBatchStep(cache: Cache, locations: seq<string>, i: nat, date: Day, eventType: string,
                         now: Timestamp, today: Day, net: Network, log: seq<Request>)
    requires i < |locations|
    ensures var prior := CompareBatch(cache, locations[..i], date, eventType, now, today, net);
            var got := Retrieve(prior.cache, locations[i], date, now, today, net);
            var next := CompareBatch(cache, locations[..i + 1], date, eventType, now, today, net);
            && next.items == prior.items + [CompareEntry(locations[i], date, eventType, got.result)]
            && next.cache == got.cache
            && log + next.issued == (log + prior.issued) + got.issued
  {
    assert locations[..i + 1][..i] == locations[..i];
  }

  /** The sorted comparison: every entry kept, scores descending, error
      entries after every rated one, and entries with equal keys in input
      order. */
  lemma ComparisonOrder(entries: seq<Comparison>)
    requires forall i :: 0 <= i < |entries| && entries[i].Rated? ==> 0 <= entries[i].suitability.score
    ensures var sorted := SortDesc(entries, ComparisonKey);
            && multiset(sorted) == multiset(entries)
            && SortedDesc(sorted, ComparisonKey)
            && (forall i, j :: 0 <= i < j < |sorted| && sorted[i].Failed? ==> sorted[j].Failed?)
            && (forall k :: WithKey(sorted, ComparisonKey, k) == WithKey(entries, ComparisonKey, k))
  {
    var sorted := SortDesc(entries, ComparisonKey);
    SortDescPermutes(entries, ComparisonKey);
    SortDescSorted(entries, ComparisonKey);
    forall k
      ensures WithKey(sorted, ComparisonKey, k) == WithKey(entries, ComparisonKey, k)
    {
      SortDescStable(entries, ComparisonKey, k);
    }
    forall i, j | 0 <= i < j < |sorted| && sorted[i].Failed?
      ensures sorted[j].Failed?
    {
      assert sorted[j] in multiset(entries);
      assert ComparisonKey(sorted[i]) >= ComparisonKey(sorted[j]);
    }
  }

  // ---------------------------------------------------------------------
  // Alternative dates

  /** How many dates are tried: today and the five days after it. */
  const AlternativeDays: nat := 6

  /** The dates tried, in order: today + 0 .. today + 5. */
  function Window(today: Day): (dates: seq<Day>)
    ensures |dates| == AlternativeDays
    ensures forall k :: 0 <= k < |dates| ==> dates[k] == today + k
  {
    seq(AlternativeDays, k requires 0 <= k < AlternativeDays => today + k)
  }

  datatype Alternative = Alternative(date: Day, weather: WeatherInfo, suitability: Rating)

  /** An exception that escapes `get_alternative_dates`. */
  datatype Fault = WeatherFault(error: WeatherError) | ScoringFault(cause: ScoringError)

  datatype AlternativesOutcome = AltEventNotFound | AltRaised(fault: Fault) | AltDates(alternatives: seq<Alternative>)

  /** The state of the search after some dates, with what it found, the
      cache and the requests so far. */
  datatype Search = Search(found: Result<seq<Alternative>, Fault>, cache: Cache, issued: seq<Request>)

  /** What one date does to the alternatives found so far, given what
      `get_weather_data` returned for it: an exception ends the search, a
      date without data adds nothing, and otherwise the date is appended
      with its data and suitability. */
  function Extend(found: seq<Alternative>, event: Event, d: Day, got: Result<Option<WeatherInfo>, WeatherError>): (r: Result<seq<Alternative>, Fault>)
    ensures got.Err? ==> r == Err(WeatherFault(got.error))
    ensures got.Ok? && !Truthy(got.value) ==> r == Ok(found)
    ensures got.Ok? && Truthy(got.value) && SuitabilityScore(event.eventType, got.value).Err? ==>
              r == Err(ScoringFault(SuitabilityScore(event.eventType, got.value).error))
    ensures got.Ok? && Truthy(got.value) && SuitabilityScore(event.eventType, got.value).Ok? ==>
              r == Ok(found + [Alternative(d, got.value.value, SuitabilityScore(event.eventType, got.value).value)])
    ensures r.Ok? ==>
              || r.value == found
              || (&& |r.value| == |found| + 1
                  && r.value[..|found|] == found
                  && var a := r.value[|found|];
                     a.date == d && got == Ok(Some(a.weather)) && a.weather.WeatherInfo?
                     && SuitabilityScore(event.eventType, Some(a.weather)) == Ok(a.suitability))
  {
    match got
    case Err(e) => Err(WeatherFault(e))
    case Ok(w) =>
      if !Truthy(w) then Ok(found)
      else
        match SuitabilityScore(event.eventType, w)
        case Err(e) => Err(ScoringFault(e))
        case Ok(rating) =>
          var extended := found + [Alternative(d, w.value, rating)];
          assert extended[..|found|] == found;
          Ok(extended)
  }

  /** One iteration of the search on date `d`. */
  function TryDate(prior: Search, event: Event, d: Day, now: Timestamp, today: Day, net: Network): (s: Search)
    requires prior.found.Ok?
    ensures s.found.Ok? ==>
              || s.found == prior.found
              || (&& |s.found.value| == |prior.found.value| + 1
                  && s.found.value[..|prior.found.value|] == prior.found.value
                  && var a := s.found.value[|prior.found.value|];
                     a.date == d && a.weather.WeatherInfo?
                     && SuitabilityScore(event.eventType, Some(a.weather)) == Ok(a.suitability))
    ensures var got := Retrieve(prior.cache, event.location, d, now, today, net);
            got.result.Ok? && Truthy(got.result.value) && SuitabilityScore(event.eventType, got.result.value).Ok? ==>
              s.found == Ok(prior.found.value + [Alternative(d, got.result.value.value, SuitabilityScore(event.eventType, got.result.value).value)])
  {
    var got := Retrieve(prior.cache, event.location, d, now, today, net);
    Search(Extend(prior.found.value, event, d, got.result), got.cache, prior.issued + got.issued)
  }

  /** The search loop over `dates`: the event's own date is skipped when it
      is not in the past, and the first exception ends the search. */
  function AlternativeSearch(cache: Cache, event: Event, now: Timestamp, today: Day, net: Network, dates: seq<Day>): Search
  {
    if dates == [] then Search(Ok([]), cache, [])
    else
      var prior := AlternativeSearch(cache, event, now, today, net, dates[..|dates| - 1]);
      var d := dates[|dates| - 1];
      if prior.found.Err? || (d == event.date && d >= today) then prior
      else TryDate(prior, event, d, now, today, net)
  }

  /** One more date extends the search by exactly one `TryDate`, unless it
      is the event's own date. */
  lemma AlternativeSearchStep(cache: Cache, event: Event, now: Timestamp, today: Day, net: Network, dates: seq<Day>, d: Day)
    requires AlternativeSearch(cache, event, now, today, net, dates).found.Ok?
    ensures var prior := AlternativeSearch(cache, event, now, today, net, dates);
            AlternativeSearch(cache, event, now, today, net, dates + [d])
            == if d == event.date && d >= today then prior else TryDate(prior, event, d, now, today, net)
  {
    assert (dates + [d])[..|dates|] == dates;
  }

  /** Once an exception has ended the search, further dates change nothing. */
  lemma {:induction false} AlternativeSearchHalts(cache: Cache, event: Event, now: Timestamp, today: Day, net: Network,
                                                  dates: seq<Day>, i: nat, j: nat)
    requires i <= j <= |dates|
    requires AlternativeSearch(cache, event, now, today, net, dates[..i]).found.Err?
    ensures AlternativeSearch(cache, event, now, today, net, dates[..j]) == AlternativeSearch(cache, event, now, today, net, dates[..i])
    decreases j - i
  {
    if i < j {
      AlternativeSearchHalts(cache, event, now, today, net, dates, i, j - 1);
      assert dates[..j][..j - 1] == dates[..j - 1];
    }
  }

  /** The search after trying `d`, in terms of what `get_weather_data`
      returned for it; an exception also fixes the outcome of the whole
      search. */
  lemma AlternativeSearchAdvance(cache: Cache, event: Event, now: Timestamp, today: Day, net: Network,
                                 dates: seq<Day>, i: nat, current: Cache, log: seq<Request>)
    requires i < |dates|
    requires AlternativeSearch(cache, event, now, today, net, dates[..i]).found.Ok?
    requires AlternativeSearch(cache, event, now, today, net, dates[..i]).cache == current
    requires !(dates[i] == event.date && dates[i] >= today)
    ensures var prior := AlternativeSearch(cache, event, now, today, net, dates[..i]);
            var got := Retrieve(current, event.location, dates[i], now, today, net);
            var next := AlternativeSearch(cache, event, now, today, net, dates[..i + 1]);
            && next.cache == got.cache
            && next.issued == prior.issued + got.issued
            && log + next.issued == (log + prior.issued) + got.issued
            && next.found == Extend(prior.found.value, event, dates[i], got.result)
            && (next.found.Err? ==>
                  var last := AlternativeSearch(cache, event, now, today, net, dates);
                  last.found == next.found && last.cache == next.cache && last.issued == next.issued)
  {
    assert dates[..i + 1] == dates[..i] + [dates[i]];
    AlternativeSearchStep(cache, event, now, today, net, dates[..i], dates[i]);
    if AlternativeSearch(cache, event, now, today, net, dates[..i + 1]).found.Err? {
      AlternativeSearchHalts(cache, event, now, today, net, dates, i + 1, |dates|);
      assert dates[..|dates|] == dates;
    }
  }

  /** Skipping the event's own date leaves the search as it was. */
  lemma AlternativeSearchSkip(cache: Cache, event: Event, now: Timestamp, today: Day, net: Network, dates: seq<Day>, i: nat)
    requires i < |dates|
    requires AlternativeSearch(cache, event, now, today, net, dates[..i]).found.Ok?
    requires dates[i] == event.date && dates[i] >= today
    ensures AlternativeSearch(cache, event, now, today, net, dates[..i + 1]) == AlternativeSearch(cache, event, now, today, net, dates[..i])
  {
    assert dates[..i + 1] == dates[..i] + [dates[i]];
    AlternativeSearchStep(cache, event, now, today, net, dates[..i], dates[i]);
  }

  /** The alternatives found on `dates`: at most one per date, on strictly
      increasing dates taken from `dates`, none on the event's own date,
      each with data and the suitability the scorer gives that data. */
  ghost predicate FoundOn(found: seq<Alternative>, event: Event, dates: seq<Day>)
  {
    && |found| <= |dates|
    && (forall i :: 0 <= i < |found| ==>
          && found[i].date in dates
          && found[i].date != event.date
          && found[i].weather.WeatherInfo?
          && SuitabilityScore(event.eventType, Some(found[i].weather)) == Ok(found[i].suitability))
    && (forall i, j :: 0 <= i < j < |found| ==> found[i].date < found[j].date)
  }

  /** Keeping the list, or appending one scored alternative on a later date
      than all before it, keeps it an admissible result. */
  lemma FoundOnExtend(earlier: seq<Alternative>, found: seq<Alternative>, event: Event, dates: seq<Day>, d: Day)
    requires FoundOn(earlier, event, dates)
    requires forall k :: 0 <= k < |dates| ==> dates[k] < d
    requires d != event.date
    requires || found == earlier
             || (&& |found| == |earlier| + 1
                 && found[..|earlier|] == earlier
                 && var a := found[|earlier|];
                    a.date == d && a.weather.WeatherInfo?
                    && SuitabilityScore(event.eventType, Some(a.weather)) == Ok(a.suitability))
    ensures FoundOn(found, event, dates + [d])
  {
    forall i | 0 <= i < |earlier|
      ensures earlier[i].date < d && earlier[i].date in dates + [d]
    {
      var k :| 0 <= k < |dates| && dates[k] == earlier[i].date;
    }
    if found != earlier {
      forall i | 0 <= i < |earlier|
        ensures found[i] == earlier[i]
      {
        assert found[..|earlier|][i] == found[i];
      }
    }
  }

  /** What the search finds among increasing dates no earlier than today. */
  lemma {:induction false} AlternativeSearchFinds(cache: Cache, event: Event, now: Timestamp, today: Day, net: Network, dates: seq<Day>)
    requires forall j, k :: 0 <= j < k < |dates| ==> dates[j] < dates[k]
    requires forall k :: 0 <= k < |dates| ==> today <= dates[k]
    ensures var s := AlternativeSearch(cache, event, now, today, net, dates);
            s.found.Ok? ==> FoundOn(s.found.value, event, dates)
  {
    if dates != [] {
      var init := dates[..|dates| - 1];
      var d := dates[|dates| - 1];
      AlternativeSearchFinds(cache, event, now, today, net, init);
      assert dates == init + [d];
      var prior := AlternativeSearch(cache, event, now, today, net, init);
      var s := AlternativeSearch(cache, event, now, today, net, dates);
      if s.found.Ok? && prior.found.Ok? {
        AlternativeSearchStep(cache, event, now, today, net, init, d);
        if d == event.date {
          assert s == prior;
          forall i | 0 <= i < |s.found.value|
            ensures s.found.value[i].date in dates
          {
            assert s.found.value[i].date in init;
          }
        } else {
          FoundOnExtend(prior.found.value, s.found.value, event, init, d);
        }
      }
    }
  }

  /** The alternatives only grow: a search that has not raised by its last
      date had not raised earlier either, and what it found earlier is a
      prefix of what it finds in the end. */
  lemma {:induction false} AlternativeSearchGrows(cache: Cache, event: Event, now: Timestamp, today: Day, net: Network,
                                                  dates: seq<Day>, i: nat, j: nat)
    requires i <= j <= |dates|
    requires AlternativeSearch(cache, event, now, today, net, dates[..j]).found.Ok?
    ensures AlternativeSearch(cache, event, now, today, net, dates[..i]).found.Ok?
    ensures AlternativeSearch(cache, event, now, today, net, dates[..i]).found.value
            <= AlternativeSearch(cache, event, now, today, net, dates[..j]).found.value
    decreases j - i
  {
    if i < j {
      assert dates[..j][..j - 1] == dates[..j - 1];
      var prior := AlternativeSearch(cache, event, now, today, net, dates[..j - 1]);
      assert prior.found.Ok?;
      AlternativeSearchGrows(cache, event, now, today, net, dates, i, j - 1);
    }
  }

  /** A date that is not skipped and whose lookup gives data the scorer rates
      appends exactly that date, data and rating to what was found before. */
  lemma AlternativeSearchAppends(cache: Cache, event: Event, now: Timestamp, today: Day, net: Network,
                                 dates: seq<Day>, i: nat)
    requires i < |dates| && !(dates[i] == event.date && dates[i] >= today)
    requires AlternativeSearch(cache, event, now, today, net, dates[..i]).found.Ok?
    ensures var prior := AlternativeSearch(cache, event, now, today, net, dates[..i]);
            var got := Retrieve(prior.cache, event.location, dates[i], now, today, net);
            got.result.Ok? && Truthy(got.result.value) && SuitabilityScore(event.eventType, got.result.value).Ok? ==>
              AlternativeSearch(cache, event, now, today, net, dates[..i + 1]).found
              == Ok(prior.found.value + [Alternative(dates[i], got.result.value.value, SuitabilityScore(event.eventType, got.result.value).value)])
  {
    var prior := AlternativeSearch(cache, event, now, today, net, dates[..i]);
    AlternativeSearchAdvance(cache, event, now, today, net, dates, i, prior.cache, []);
  }

  /** Completeness over any list of dates: a date that is not skipped and
      whose lookup gives data the scorer rates is in the returned list, unless
      a later date raised. */
  lemma AlternativeSearchKeeps(cache: Cache, event: Event, now: Timestamp, today: Day, net: Network,
                               dates: seq<Day>, i: nat)
    requires i < |dates| && !(dates[i] == event.date && dates[i] >= today)
    ensures var prior := AlternativeSearch(cache, event, now, today, net, dates[..i]);
            var got := Retrieve(prior.cache, event.location, dates[i], now, today, net);
            var last := AlternativeSearch(cache, event, now, today, net, dates);
            last.found.Ok? && got.result.Ok? && Truthy(got.result.value) && SuitabilityScore(event.eventType, got.result.value).Ok? ==>
              Alternative(dates[i], got.result.value.value, SuitabilityScore(event.eventType, got.result.value).value)
                in SortDesc(last.found.value, AlternativeKey)
  {
    var prior := AlternativeSearch(cache, event, now, today, net, dates[..i]);
    var got := Retrieve(prior.cache, event.location, dates[i], now, today, net);
    var last := AlternativeSearch(cache, event, now, today, net, dates);
    if last.found.Ok? && got.result.Ok? && Truthy(got.result.value) && SuitabilityScore(event.eventType, got.result.value).Ok? {
      assert dates[..|dates|] == dates;
      AlternativeSearchGrows(cache, event, now, today, net, dates, i + 1, |dates|);
      AlternativeSearchGrows(cache, event, now, today, net, dates, i, |dates|);
      var alt := Alternative(dates[i], got.result.value.value, SuitabilityScore(event.eventType, got.result.value).value);
      AlternativeSearchAppends(cache, event, now, today, net, dates, i);
      var next := AlternativeSearch(cache, event, now, today, net, dates[..i + 1]).found.value;
      assert next == prior.found.value + [alt];
      SortDescKeepsPrefixLast(next, last.found.value, AlternativeKey);
      assert next[|next| - 1] == alt;
    }
  }

  /** Completeness: every date of the window other than the event's own,
      whose lookup (on the cache the earlier dates left) gives data the
      scorer rates, appears in the returned list with that data and rating,
      unless a later date raised. */
  lemma AlternativeSearchComplete(cache: Cache, event: Event, now: Timestamp, today: Day, net: Network, i: nat)
    requires i < AlternativeDays && today + i != event.date
    ensures Window(today)[i] == today + i
    ensures var dates := Window(today);
            var d := dates[i];
            var prior := AlternativeSearch(cache, event, now, today, net, dates[..i]);
            var got := Retrieve(prior.cache, event.location, d, now, today, net);
            var last := AlternativeSearch(cache, event, now, today, net, dates);
            last.found.Ok? && got.result.Ok? && Truthy(got.result.value) && SuitabilityScore(event.eventType, got.result.value).Ok? ==>
              Alternative(d, got.result.value.value, SuitabilityScore(event.eventType, got.result.value).value)
                in SortDesc(last.found.value, AlternativeKey)
  {
    AlternativeSearchKeeps(cache, event, now, today, net, Window(today), i);
  }

  function AlternativeKey(a: Alternative): int
  {
    a.suitability.score
  }

  /** The returned list: at most six alternatives, each on a date in
      today .. today + 5 other than the event's, each with data, sorted by
      score descending. */
  lemma AlternativeDatesPromise(cache: Cache, event: Event, now: Timestamp, today: Day, net: Network)
    requires AlternativeSearch(cache, event, now, today, net, Window(today)).found.Ok?
    ensures var found := AlternativeSearch(cache, event, now, today, net, Window(today)).found.value;
            var sorted := SortDesc(found, AlternativeKey);
            && |sorted| <= 6
            && multiset(sorted) == multiset(found)
            && SortedDesc(sorted, AlternativeKey)
            && (forall a :: a in sorted ==>
                  && today <= a.date <= today + 5
                  && a.date != event.date
                  && a.weather.WeatherInfo?)
  {
    var dates := Window(today);
    var found := AlternativeSearch(cache, event, now, today, net, dates).found.value;
    AlternativeSearchFinds(cache, event, now, today, net, dates);
    assert FoundOn(found, event, dates);
    SortDescPermutes(found, AlternativeKey);
    SortDescSorted(found, AlternativeKey);
    var sorted := SortDesc(found, AlternativeKey);
    forall a | a in sorted
      ensures today <= a.date <= today + 5 && a.date != event.date && a.weather.WeatherInfo?
    {
      assert a in multiset(found);
      var i :| 0 <= i < |found| && found[i] == a;
      var k :| 0 <= k < |dates| && dates[k] == a.date;
    }
  }

  // ---------------------------------------------------------------------
  // Weather-change alert

  datatype ChangeDetail = TemperatureChanged(delta: real) | PrecipitationChanged(previous: string, current: string)

  datatype ChangeStatus =
    | ChangeEventNotFound
    | ChangeError(error: WeatherError)
    | NoData
    | NoPreviousData
    | NoChange
    | Alert(details: seq<ChangeDetail>)

  /** Python's `abs` on a float. */
  function Abs(x: real): (r: real)
    ensures r >= 0.0 && (r == x || r == -x)
  {
    if x < 0.0 then -x else x
  }

  /** `forecast.get('daily_summary', {}).get('temperature', {}).get('day')`. */
  function DayTemperature(summary: Option<DailySummary>): Option<real>
  {
    if summary.Some? then summary.value.dayTemperature else None
  }

  /** `forecast.get('daily_summary', {}).get('precipitation_description', 'none').lower()`. */
  function PrecipitationText(summary: Option<DailySummary>): string
  {
    Lower(if summary.Some? && summary.value.precipitationDescription.Some? then summary.value.precipitationDescription.value else "none")
  }

  /** `temp_change`: present only when both day temperatures are. */
  function TemperatureChange(current: Option<DailySummary>, previous: Option<DailySummary>): (c: Option<real>)
    ensures c.Some? <==> DayTemperature(current).Some? && DayTemperature(previous).Some?
    ensures c.Some? ==> c.value == Abs(DayTemperature(current).value - DayTemperature(previous).value)
  {
    var now, before := DayTemperature(current), DayTemperature(previous);
    if now.Some? && before.Some? then Some(Abs(now.value - before.value)) else None
  }

  /** The decision once both forecasts are in hand. */
  function ChangeVerdict(current: Option<DailySummary>, previous: Option<DailySummary>): ChangeStatus
  {
    var change := TemperatureChange(current, previous);
    var temperatureShift := change.Some? && change.value > 5.0;
    var now, before := PrecipitationText(current), PrecipitationText(previous);
    var precipitationFlip := MentionsPrecipitation(now) != MentionsPrecipitation(before);
    if temperatureShift || precipitationFlip then
      Alert((if temperatureShift then [TemperatureChanged(change.value)] else [])
            + (if precipitationFlip then [PrecipitationChanged(before, now)] else []))
    else NoChange
  }

  /** The alert fires iff both day temperatures are present and differ by
      more than 5 °C, or rain/snow is mentioned on one side only; the
      temperature detail comes before the precipitation detail. */
  lemma ChangeVerdictRule(current: Option<DailySummary>, previous: Option<DailySummary>)
    ensures var v := ChangeVerdict(current, previous);
            var t, p := DayTemperature(current), DayTemperature(previous);
            var temperatureShift := t.Some? && p.Some? && Abs(t.value - p.value) > 5.0;
            var precipitationFlip := MentionsPrecipitation(PrecipitationText(current)) != MentionsPrecipitation(PrecipitationText(previous));
            && (v.Alert? <==> temperatureShift || precipitationFlip)
            && (!v.Alert? ==> v == NoChange)
            && (v.Alert? ==> 1 <= |v.details| <= 2)
            && (v.Alert? && temperatureShift ==> v.details[0] == TemperatureChanged(Abs(t.value - p.value)))
            && (v.Alert? && precipitationFlip ==>
                  v.details[|v.details| - 1] == PrecipitationChanged(PrecipitationText(previous), PrecipitationText(current)))
            && (v.Alert? ==> |v.details| == (if temperatureShift then 1 else 0) + (if precipitationFlip then 1 else 0))
  {
  }

  /** The same summary on both dates never alerts; a 6 °C rise or drop with
      the same precipitation alerts with the temperature detail alone. */
  lemma ChangeVerdictExamples(s: Option<DailySummary>, day: real, precipitation: Option<string>)
    ensures ChangeVerdict(s, s) == NoChange
    ensures ChangeVerdict(Some(DailySummary(Some(day + 6.0), precipitation)), Some(DailySummary(Some(day), precipitation)))
         == Alert([TemperatureChanged(6.0)])
    ensures ChangeVerdict(Some(DailySummary(Some(day), precipitation)), Some(DailySummary(Some(day + 6.0), precipitation)))
         == Alert([TemperatureChanged(6.0)])
  {
  }

  /** With the temperature steady, a precipitation flip alone gives one
      detail carrying both texts. */
  lemma PrecipitationFlipAlone(current: Option<DailySummary>, previous: Option<DailySummary>)
    requires !(TemperatureChange(current, previous).Some? && TemperatureChange(current, previous).value > 5.0)
    requires MentionsPrecipitation(PrecipitationText(current)) != MentionsPrecipitation(PrecipitationText(previous))
    ensures ChangeVerdict(current, previous)
         == Alert([PrecipitationChanged(PrecipitationText(previous), PrecipitationText(current))])
  {
  }

  /** Rain appearing against an absent description alerts with the default
      `"none"` and the lower-cased text. */
  lemma RainAppearsAlerts(t: Option<real>)
    ensures ChangeVerdict(Some(DailySummary(t, Some("Light Rain"))), Some(DailySummary(t, None)))
         == Alert([PrecipitationChanged("none", "light rain")])
  {
    var now, before := Some(DailySummary(t, Some("Light Rain"))), Some(DailySummary(t, None));
    assert Lower("Light Rain") == "light " + "rain";
    assert PrecipitationText(now) == "light rain";
    MentionsAfterPrefix("light ");
    assert Lower("none") == "none";
    assert PrecipitationText(before) == "none";
    NoneIsDry();
    assert !(TemperatureChange(now, before).Some? && TemperatureChange(now, before).value > 5.0);
    PrecipitationFlipAlone(now, before);
  }

  /** Snow appearing against a dry sky alerts with both lower-cased texts. */
  lemma SnowAppearsAlerts(t: Option<real>)
    ensures ChangeVerdict(Some(DailySummary(t, Some("Snow"))), Some(DailySummary(t, Some("clear sky"))))
         == Alert([PrecipitationChanged("clear sky", "snow")])
  {
    var now, before := Some(DailySummary(t, Some("Snow"))), Some(DailySummary(t, Some("clear sky")));
    assert Lower("Snow") == "" + "snow";
    assert PrecipitationText(now) == "snow";
    MentionsAfterPrefix("");
    assert Lower("clear sky") == "clear sky";
    assert PrecipitationText(before) == "clear sky";
    DryWithoutN("clear sky");
    assert !(TemperatureChange(now, before).Some? && TemperatureChange(now, before).value > 5.0);
    PrecipitationFlipAlone(now, before);
  }

  /** Rain on both days is no change, however it is worded. */
  lemma RainOnBothDaysNoChange(t: Option<real>)
    ensures ChangeVerdict(Some(DailySummary(t, Some("Heavy Rain"))), Some(DailySummary(t, Some("light rain"))))
         == NoChange
  {
    assert Lower("Heavy Rain") == "heavy " + "rain";
    MentionsAfterPrefix("heavy ");
    assert Lower("light rain") == "light " + "rain";
    MentionsAfterPrefix("light ");
  }

  /** The comparison at event_service.py:292-318, building the alert's
      details one trigger at a time. */
  method AssessChange(current: Option<DailySummary>, previous: Option<DailySummary>) returns (r: ChangeStatus)
    ensures r == ChangeVerdict(current, previous)
  {
    var change := TemperatureChange(current, previous);
    var nowText, beforeText := PrecipitationText(current), PrecipitationText(previous);
    var significant := false;
    var details: seq<ChangeDetail> := [];
    if change.Some? && change.value > 5.0 {
      significant := true;
      details := details + [TemperatureChanged(change.value)];
    }
    if MentionsPrecipitation(nowText) != MentionsPrecipitation(beforeText) {
      significant := true;
      details := details + [PrecipitationChanged(beforeText, nowText)];
    }
    r := if significant then Alert(details) else NoChange;
  }

  /** The outcome of one change check, with the cache it leaves and the
      requests it issues. */
  datatype ChangeRun = ChangeRun(status: ChangeStatus, cache: Cache, issued: seq<Request>)

  /** `check_for_significant_weather_change` given the lookup for the
      event's date and the one for the day before (a stand-in for an earlier
      forecast); the second counts (its result, cache and requests) only
      when the first yields data, since only then is it made. */
  function ChangeCheck(current: Retrieval, previous: Retrieval): (run: ChangeRun)
    ensures !(current.result.Ok? && Truthy(current.result.value)) ==> run.cache == current.cache && run.issued == current.issued
    ensures current.result.Ok? && Truthy(current.result.value) ==>
              run.cache == previous.cache && run.issued == current.issued + previous.issued
  {
    if current.result.Err? then ChangeRun(ChangeError(current.result.error), current.cache, current.issued)
    else if !Truthy(current.result.value) then ChangeRun(NoData, current.cache, current.issued)
    else
      var issued := current.issued + previous.issued;
      if previous.result.Err? then ChangeRun(ChangeError(previous.result.error), previous.cache, issued)
      else if !Truthy(previous.result.value) then ChangeRun(NoPreviousData, previous.cache, issued)
      else ChangeRun(ChangeVerdict(current.result.value.value.dailySummary, previous.result.value.value.dailySummary),
                     previous.cache, issued)
  }

  /** When the event's date yields no data or an error, that decides the
      outcome whatever the day before would have given: `no_data` or the
      error, before the previous day is even looked up. */
  lemma ChangeCheckStopsEarly(current: Retrieval, previous: Retrieval, other: Retrieval)
    requires !(current.result.Ok? && Truthy(current.result.value))
    ensures ChangeCheck(current, previous).status == ChangeCheck(current, other).status
    ensures current.result.Ok? ==> ChangeCheck(current, previous).status == NoData
    ensures current.result.Err? ==> ChangeCheck(current, previous).status == ChangeError(current.result.error)
  {
  }

  /** Once the event's date has data, the day before decides: its error, or
      `no_previous_data` when it has none, or else the verdict on the two
      records' summaries. */
  lemma ChangeCheckAfterData(current: Retrieval, previous: Retrieval)
    requires current.result.Ok? && Truthy(current.result.value)
    ensures previous.result.Err? ==> ChangeCheck(current, previous).status == ChangeError(previous.result.error)
    ensures previous.result.Ok? && !Truthy(previous.result.value) ==> ChangeCheck(current, previous).status == NoPreviousData
    ensures previous.result.Ok? && Truthy(previous.result.value) ==>
              ChangeCheck(current, previous).status
              == ChangeVerdict(current.result.value.value.dailySummary, previous.result.value.value.dailySummary)
  {
  }

  /** Two lookups whose records carry no `daily_summary` never alert. */
  lemma ChangeCheckWithoutSummaries(current: Retrieval, previous: Retrieval)
    requires SummaryFree(current) && SummaryFree(previous)
    ensures !ChangeCheck(current, previous).status.Alert?
  {
    ChangeVerdictExamples(None, 0.0, None);
  }

  /** As written, the check reads a `daily_summary` that neither the fetcher
      nor the cache it fills ever carries, so on such data it never alerts. */
  lemma ChangeCheckNeverAlertsOnFetchedData(cache: Cache, event: Event, now: Timestamp, today: Day, net: Network)
    requires NoSummaries(cache)
    ensures var current := Retrieve(cache, event.location, event.date, now, today, net);
            var previous := Retrieve(current.cache, event.location, event.date - 1, now, today, net);
            !ChangeCheck(current, previous).status.Alert?
  {
    var current := Retrieve(cache, event.location, event.date, now, today, net);
    RetrieveHasNoSummary(cache, event.location, event.date, now, today, net);
    RetrieveHasNoSummary(current.cache, event.location, event.date - 1, now, today, net);
    ChangeCheckWithoutSummaries(current, Retrieve(current.cache, event.location, event.date - 1, now, today, net));
  }

  // ---------------------------------------------------------------------
  // The service object

  /** EventService: the analyzers, sharing one WeatherService (and so its
      cache and request log). */
  class EventService {
    const weather: WeatherService

    constructor (weather: WeatherService)
      ensures this.weather == weather
    {
      this.weather := weather;
    }

    /** `get_weather_trends`, given the event and what the 5-day/3-hour
        forecast request returned for its location. */
    method GetWeatherTrends(event: Option<Event>, response: Result<seq<ForecastItem>, ForecastFailure>) returns (r: TrendOutcome)
      ensures event.None? ==> r == TrendEventNotFound
      ensures event.Some? && response.Err? ==> r == ForecastUnavailable(response.error)
      ensures event.Some? && response.Ok? ==> r == TrendsOf(event.value.eventType, response.value)
    {
      if event.None? {
        return TrendEventNotFound;
      }
      if response.Err? {
        return ForecastUnavailable(response.error);
      }
      var forecast := response.value;
      if forecast == [] {
        return NoForecastData;
      }
      var eventType := event.value.eventType;
      var daily: map<Day, seq<int>> := map[];
      for k := 0 to |forecast|
        invariant daily == DailyScores(eventType, forecast[..k])
      {
        var item := forecast[k];
        assert forecast[..k + 1] == forecast[..k] + [item];
        var score := ItemScore(eventType, item);
        ghost var before := daily;
        if item.day !in daily {
          daily := daily[item.day := []];
        }
        daily := daily[item.day := daily[item.day] + [score]];
        assert daily == before[item.day := (if item.day in before then before[item.day] else []) + [score]];
        DailyScoresStep(eventType, forecast[..k], item);
      }
      assert forecast[..|forecast|] == forecast;
      var averages := map d | d in daily :: Average(daily[d]);
      if |averages| < 2 {
        return Trends(TrendReport(Stable, false, averages));
      }
      var first, last := averages[Earliest(forecast)], averages[Latest(forecast)];
      r := Trends(TrendReport(TrendOf(first, last), true, averages));
    }

    /** `compare_weather_across_locations`. */
    method CompareWeatherAcrossLocations(locations: seq<string>, date: Day, eventType: string,
                                         now: Timestamp, today: Day, net: Network)
      returns (results: seq<Comparison>)
      modifies weather
      ensures var b := CompareBatch(old(weather.cache), locations, date, eventType, now, today, net);
              && results == SortDesc(b.items, ComparisonKey)
              && weather.cache == b.cache
              && weather.requests == old(weather.requests) + b.issued
      ensures |results| == |locations|
    {
      var entries: seq<Comparison> := [];
      for i := 0 to |locations|
        invariant var b := CompareBatch(old(weather.cache), locations[..i], date, eventType, now, today, net);
                  entries == b.items && weather.cache == b.cache && weather.requests == old(weather.requests) + b.issued
      {
        CompareBatchStep(old(weather.cache), locations, i, date, eventType, now, today, net, old(weather.requests));
        var got := weather.GetWeatherData(locations[i], date, now, today, net);
        entries := entries + [CompareEntry(locations[i], date, eventType, got)];
      }
      assert locations[..|locations|] == locations;
      results := SortDesc(entries, ComparisonKey);
    }

    /** `get_alternative_dates`. */
    method GetAlternativeDates(event: Option<Event>, now: Timestamp, today: Day, net: Network)
      returns (r: AlternativesOutcome)
      modifies weather
      ensures event.None? ==> r == AltEventNotFound && weather.cache == old(weather.cache) && weather.requests == old(weather.requests)
      ensures event.Some? ==>
                var s := AlternativeSearch(old(weather.cache), event.value, now, today, net, Window(today));
                && weather.cache == s.cache
                && weather.requests == old(weather.requests) + s.issued
                && r == (if s.found.Err? then AltRaised(s.found.error) else AltDates(SortDesc(s.found.value, AlternativeKey)))
    {
      if event.None? {
        return AltEventNotFound;
      }
      var ev := event.value;
      ghost var dates := Window(today);
      var alternatives: seq<Alternative> := [];
      for i := 0 to AlternativeDays
        invariant var s := AlternativeSearch(old(weather.cache), ev, now, today, net, dates[..i]);
                  s.found.Ok? && s.found.value == alternatives && weather.cache == s.cache && weather.requests == old(weather.requests) + s.issued
      {
        var d := today + i;
        assert d == dates[i];
        if d == ev.date && d >= today {
          AlternativeSearchSkip(old(weather.cache), ev, now, today, net, dates, i);
        } else {
          AlternativeSearchAdvance(old(weather.cache), ev, now, today, net, dates, i, weather.cache, old(weather.requests));
          ghost var next := AlternativeSearch(old(weather.cache), ev, now, today, net, dates[..i + 1]);
          var got := weather.GetWeatherData(ev.location, d, now, today, net);
          var outcome := Extend(alternatives, ev, d, got);
          assert next.found == outcome && next.cache == weather.cache && weather.requests == old(weather.requests) + next.issued;
          if outcome.Err? {
            assert dates[..|dates|] == dates;
            return AltRaised(outcome.error);
          }
          alternatives := outcome.value;
        }
      }
      assert dates[..AlternativeDays] == dates;
      r := AltDates(SortDesc(alternatives, AlternativeKey));
    }

    /** `check_for_significant_weather_change`. */
    method CheckForSignificantWeatherChange(event: Option<Event>, now: Timestamp, today: Day, net: Network)
      returns (r: ChangeStatus)
      modifies weather
      ensures event.None? ==> weather.cache == old(weather.cache) && weather.requests == old(weather.requests) && r == ChangeEventNotFound
      ensures event.Some? ==>
                var ev := event.value;
                var current := Retrieve(old(weather.cache), ev.location, ev.date, now, today, net);
                var previous := Retrieve(current.cache, ev.location, ev.date - 1, now, today, net);
                var run := ChangeCheck(current, previous);
                weather.cache == run.cache && weather.requests == old(weather.requests) + run.issued && r == run.status
    {
      if event.None? {
        return ChangeEventNotFound;
      }
      ghost var current := Retrieve(old(weather.cache), event.value.location, event.value.date, now, today, net);
      ghost var run := ChangeCheck(current, Retrieve(current.cache, event.value.location, event.value.date - 1, now, today, net));
      r := CheckEventWeather(event.value, now, today, net);
      assert weather.cache == run.cache && weather.requests == old(weather.requests) + run.issued && r == run.status;
    }

    /** `check_for_significant_weather_change` for an event that exists: look
        up its date, and go on to the day before only when that yields data. */
    method CheckEventWeather(ev: Event, now: Timestamp, today: Day, net: Network) returns (r: ChangeStatus)
      modifies weather
      ensures var current := Retrieve(old(weather.cache), ev.location, ev.date, now, today, net);
              var previous := Retrieve(current.cache, ev.location, ev.date - 1, now, today, net);
              var run := ChangeCheck(current, previous);
              weather.cache == run.cache && weather.requests == old(weather.requests) + run.issued && r == run.status
    {
      ghost var first := Retrieve(old(weather.cache), ev.location, ev.date, now, today, net);
      ghost var second := Retrieve(first.cache, ev.location, ev.date - 1, now, today, net);
      ghost var run := ChangeCheck(first, second);
      var current := weather.GetWeatherData(ev.location, ev.date, now, today, net);
      assert current == first.result && weather.cache == first.cache;
      if current.Err? {
        r := ChangeError(current.error);
        assert run == ChangeRun(r, first.cache, first.issued);
      } else if !Truthy(current.value) {
        r := NoData;
        assert run == ChangeRun(r, first.cache, first.issued);
      } else {
        ghost var before := weather.cache;
        assert before == first.cache;
        r := CompareWithDayBefore(ev, current.value.value, first, now, today, net);
        assert weather.cache == run.cache && r == run.status;
        assert (old(weather.requests) + first.issued) + second.issued == old(weather.requests) + (first.issued + second.issued);
      }
    }

    /** The rest of `check_for_significant_weather_change` once the event's
        date has yielded data: look up the day before and compare the two. */
    method CompareWithDayBefore(ev: Event, current: WeatherInfo, ghost first: Retrieval, now: Timestamp, today: Day, net: Network)
      returns (r: ChangeStatus)
      requires current.WeatherInfo? && first.result == Ok(Some(current))
      requires weather.cache == first.cache
      modifies weather
      ensures var second := Retrieve(old(weather.cache), ev.location, ev.date - 1, now, today, net);
              var run := ChangeCheck(first, second);
              weather.cache == run.cache && weather.requests == old(weather.requests) + second.issued && r == run.status
    {
      var previous := weather.GetWeatherData(ev.location, ev.date - 1, now, today, net);
      if previous.Err? {
        r := ChangeError(previous.error);
      } else if !Truthy(previous.value) {
        r := NoPreviousData;
      } else {
        r := AssessChange(current.dailySummary, previous.value.value.dailySummary);
      }
    }
  }
}
