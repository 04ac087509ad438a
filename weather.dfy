/** The weather side of the pipeline (Assignment/services/weather_service.py):
    choosing the upstream endpoint from the date, the three-hour cache keyed by
    (location, date), geocoding, turning the two upstream payload shapes into
    one weather record, the status-code and exception mapping, and
    `get_weather_data`, which tries the cache before the network.

    HTTP is an injected `Network` (the reply each endpoint would give), the
    MongoDB collection is the map `WeatherService.cache`, and the clock is the
    pair of parameters `now` (seconds) and `today` (a day number). */
module Weather {
  import opened Wrappers
  import opened Stats

  /** A calendar date, as a day number in the server's local time zone. */
  type Day = int

  /** A wall-clock instant, in seconds. */
  type Timestamp = int

  /** WEATHER_CACHE_DURATION: three hours, in seconds. */
  const CacheTtl: int := 3 * 60 * 60

  /** The forecast endpoint serves today + 1 .. today + ForecastHorizon. */
  const ForecastHorizon: int := 5

  // ---------------------------------------------------------------------
  // Errors

  /** The exception classes the service raises. */
  datatype WeatherError =
    | WeatherApiError            // the base class; carries no status_code
    | InvalidLocationError       // status_code 404
    | RateLimitExceededError     // status_code 429
    | OpenWeatherMapDownError    // status_code 500

  /** What the fetch's `try` block can raise, before its `except` clauses
      have looked at it. */
  datatype Exception =
    | Raised(error: WeatherError)   // one of the service's own exceptions
    | RequestException              // transport failure, HTTPError, JSON decoding error
    | OtherException                // KeyError / IndexError on a malformed payload

  // ---------------------------------------------------------------------
  // The upstream, as data

  datatype Coordinates = Coordinates(lat: real, lon: real)

  /** One element of a payload's `weather` list. */
  datatype Condition = Condition(description: string, main: string)

  /** The current-conditions payload; `None` is a key the payload lacks. */
  datatype CurrentBody = CurrentBody(
    temp: Option<real>, feelsLike: Option<real>, humidity: Option<real>,
    pressure: Option<real>, windSpeed: Option<real>, windDeg: Option<real>,
    weather: Option<seq<Condition>>, rain1h: Option<real>, snow1h: Option<real>)

  /** One three-hour entry of the forecast payload's `list`; `day` is the
      local calendar date of its `dt`. */
  datatype ForecastItem = ForecastItem(
    day: Day, temp: real, humidity: real, windSpeed: real,
    weather: seq<Condition>, rain3h: Option<real>, snow3h: Option<real>)

  /** The forecast payload; `list` is `None` when the key is missing. */
  datatype ForecastBody = ForecastBody(list: Option<seq<ForecastItem>>)

  /** What `requests.get` gives back: a connection failure, or a status code
      and a body that is `None` when it is not valid JSON. */
  datatype Reply<B> = ConnectionFailed | Reply(status: int, body: Option<B>)

  /** The replies the three upstream endpoints give to each query. */
  datatype Network = Network(
    geocode: string -> Reply<seq<Coordinates>>,
    current: Coordinates -> Reply<CurrentBody>,
    forecast: Coordinates -> Reply<ForecastBody>)

  datatype Endpoint = Current | Forecast

  /** An outbound HTTP request, as recorded in `WeatherService.requests`. */
  datatype Request = GeocodeRequest(location: string) | WeatherRequest(endpoint: Endpoint, at: Coordinates)

  // ---------------------------------------------------------------------
  // The normalised weather record

  /** The `daily_summary` sub-document some weather records may carry. */
  datatype DailySummary = DailySummary(dayTemperature: Option<real>, precipitationDescription: Option<string>)

  /** A weather dictionary. `NoInfo` is the empty dictionary `{}`; in
      `WeatherInfo` a field is `None` when its key is missing or null. */
  datatype WeatherInfo =
    | NoInfo
    | WeatherInfo(
        temperature: Option<real> := None, temperatureAvg: Option<real> := None,
        temperatureMin: Option<real> := None, temperatureMax: Option<real> := None,
        feelsLike: Option<real> := None, humidity: Option<real> := None,
        pressure: Option<real> := None, windSpeed: Option<real> := None,
        windSpeedAvg: Option<real> := None, windDeg: Option<real> := None,
        description: Option<string> := None, main: Option<string> := None,
        precipitation: Option<real> := None, dailySummary: Option<DailySummary> := None)

  /** Python truthiness of an optional weather dictionary: present and not `{}`. */
  predicate Truthy(w: Option<WeatherInfo>)
  {
    w.Some? && w.value.WeatherInfo?
  }

  // ---------------------------------------------------------------------
  // Endpoint selection

  /** Today is served by the current-conditions endpoint, the next five days
      by the 5-day/3-hour forecast, and every other date by neither. */
  function SelectEndpoint(date: Day, today: Day): (e: Option<Endpoint>)
    ensures e == Some(Current) <==> date == today
    ensures e == Some(Forecast) <==> today < date <= today + ForecastHorizon
    ensures e == None <==> date < today || today + ForecastHorizon < date
  {
    if date == today then Some(Current)
    else if today < date <= today + ForecastHorizon then Some(Forecast)
    else None
  }

  /** The weather request a fetch for `date` issues: none for an unsupported date. */
  function WeatherCalls(at: Coordinates, date: Day, today: Day): (calls: seq<Request>)
    ensures calls == [] <==> SelectEndpoint(date, today).None?
  {
    match SelectEndpoint(date, today)
    case None => []
    case Some(e) => [WeatherRequest(e, at)]
  }

  // ---------------------------------------------------------------------
  // Cache

  datatype CacheKey = CacheKey(location: string, date: Day)
  datatype CacheEntry = CacheEntry(data: WeatherInfo, timestamp: Timestamp)
  type Cache = map<CacheKey, CacheEntry>

  /** `get_cached_weather`: the stored data when an entry for the key exists and
      is strictly younger than three hours, otherwise nothing. */
  function Lookup(cache: Cache, location: string, date: Day, now: Timestamp): (r: Option<WeatherInfo>)
    ensures r.Some? <==> CacheKey(location, date) in cache && now - cache[CacheKey(location, date)].timestamp < CacheTtl
    ensures r.Some? ==> r.value == cache[CacheKey(location, date)].data
  {
    var key := CacheKey(location, date);
    if key in cache && now - cache[key].timestamp < CacheTtl then Some(cache[key].data) else None
  }

  /** `set_cached_weather`: an upsert of (data, now) under the key. */
  function Store(cache: Cache, location: string, date: Day, data: WeatherInfo, now: Timestamp): (c: Cache)
    ensures c.Keys == cache.Keys + {CacheKey(location, date)}
    ensures c[CacheKey(location, date)] == CacheEntry(data, now)
    ensures forall k :: k in cache && k != CacheKey(location, date) ==> c[k] == cache[k]
  {
    cache[CacheKey(location, date) := CacheEntry(data, now)]
  }

  /** A write is read back unchanged for three hours and not a moment longer,
      and reads of every other key see what they saw before. */
  lemma StoreThenLookup(cache: Cache, location: string, date: Day, data: WeatherInfo, stored: Timestamp, now: Timestamp)
    ensures now - stored < CacheTtl ==> Lookup(Store(cache, location, date, data, stored), location, date, now) == Some(data)
    ensures now - stored >= CacheTtl ==> Lookup(Store(cache, location, date, data, stored), location, date, now) == None
    ensures forall l, d :: (l, d) != (location, date) ==>
              Lookup(Store(cache, location, date, data, stored), l, d, now) == Lookup(cache, l, d, now)
  {
  }

  // ---------------------------------------------------------------------
  // Geocoding

  /** `response.raise_for_status()` raises exactly for 4xx and 5xx codes. */
  predicate RaisesForStatus(status: int)
  {
    400 <= status < 600
  }

  /** `_get_coordinates_from_location`: the first result's coordinates; no
      result raises InvalidLocationError (not a RequestException, so it is not
      re-wrapped); every request failure becomes OpenWeatherMapDownError. */
  function Resolve(reply: Reply<seq<Coordinates>>): (r: Result<Coordinates, WeatherError>)
    ensures r.Ok? <==> reply.Reply? && !RaisesForStatus(reply.status) && reply.body.Some? && reply.body.value != []
    ensures r.Ok? ==> r.value == reply.body.value[0]
    ensures r == Err(InvalidLocationError) <==> reply.Reply? && !RaisesForStatus(reply.status) && reply.body == Some([])
    ensures r.Err? ==> r.error == InvalidLocationError || r.error == OpenWeatherMapDownError
  {
    match reply
    case ConnectionFailed => Err(OpenWeatherMapDownError)
    case Reply(status, body) =>
      if RaisesForStatus(status) || body.None? then Err(OpenWeatherMapDownError)
      else if body.value == [] then Err(InvalidLocationError)
      else Ok(body.value[0])
  }

  // ---------------------------------------------------------------------
  // Fetching: status codes and exceptions

  /** What the fetch raises on seeing a status code, before reading the body:
      its own typed errors for 401, 404 and 429, then `raise_for_status`. */
  function StatusException(status: int): Option<Exception>
  {
    if status == 401 then Some(Raised(WeatherApiError))
    else if status == 404 then Some(Raised(InvalidLocationError))
    else if status == 429 then Some(Raised(RateLimitExceededError))
    else if RaisesForStatus(status) then Some(RequestException)
    else None
  }

  /** The fetch's two `except` clauses: a RequestException becomes
      OpenWeatherMapDownError and everything else, the fetch's own typed
      errors included, a plain WeatherAPIError. */
  function Rewrap(x: Exception): WeatherError
  {
    match x
    case RequestException => OpenWeatherMapDownError
    case _ => WeatherApiError
  }

  /** 401, 404 and 429 surface as a plain WeatherAPIError; any other 4xx or
      5xx as OpenWeatherMapDownError; other codes go on to the body. */
  lemma StatusMapping(status: int)
    ensures status in {401, 404, 429} ==> StatusException(status).Some? && Rewrap(StatusException(status).value) == WeatherApiError
    ensures status !in {401, 404, 429} && RaisesForStatus(status) ==>
              StatusException(status).Some? && Rewrap(StatusException(status).value) == OpenWeatherMapDownError
    ensures StatusException(status).None? <==> !RaisesForStatus(status)
  {
  }

  /** The status code of a reply; `None` when the connection failed. */
  function StatusOf<B>(reply: Reply<B>): Option<int>
  {
    if reply.Reply? then Some(reply.status) else None
  }

  /** The common part of both weather calls: a transport failure, a bad
      status or an undecodable body raise; otherwise the decoded body. */
  function Receive<B>(reply: Reply<B>): (r: Result<B, Exception>)
    ensures r.Ok? <==> reply.Reply? && !RaisesForStatus(reply.status) && reply.body.Some?
    ensures r.Ok? ==> r.value == reply.body.value
    ensures reply.ConnectionFailed? ==> r == Err(RequestException)
    ensures reply.Reply? && RaisesForStatus(reply.status) ==> r == Err(StatusException(reply.status).value)
    ensures reply.Reply? && !RaisesForStatus(reply.status) && reply.body.None? ==> r == Err(RequestException)
  {
    match reply
    case ConnectionFailed => Err(RequestException)
    case Reply(status, body) =>
      if StatusException(status).Some? then Err(StatusException(status).value)
      else if body.None? then Err(RequestException)
      else Ok(body.value)
  }

  // ---------------------------------------------------------------------
  // Normalisation

  /** `rain.get(k, 0) or snow.get(k, 0)`: the rain amount when it is present
      and non-zero, otherwise the snow amount, otherwise 0. */
  function PrecipitationOf(rain: Option<real>, snow: Option<real>): (p: real)
    ensures rain.Some? && rain.value != 0.0 ==> p == rain.value
    ensures (rain.None? || rain.value == 0.0) && snow.Some? ==> p == snow.value
    ensures (rain.None? || rain.value == 0.0) && snow.None? ==> p == 0.0
  {
    if rain.Some? && rain.value != 0.0 then rain.value
    else if snow.Some? then snow.value
    else 0.0
  }

  /** The current-conditions record: every key present, values copied from
      the payload (`None` where the payload lacks them). An empty `weather`
      list raises IndexError. */
  function NormalizeCurrent(body: CurrentBody): Result<WeatherInfo, Exception>
  {
    if body.weather == Some([]) then Err(OtherException)
    else
      var condition := if body.weather.Some? then Some(body.weather.value[0]) else None;
      Ok(WeatherInfo(
        temperature := body.temp, feelsLike := body.feelsLike, humidity := body.humidity,
        pressure := body.pressure, windSpeed := body.windSpeed, windDeg := body.windDeg,
        description := if condition.Some? then Some(condition.value.description) else None,
        main := if condition.Some? then Some(condition.value.main) else None,
        precipitation := Some(PrecipitationOf(body.rain1h, body.snow1h))))
  }

  /** The forecast entries dated `date`, in payload order. */
  function OnDay(items: seq<ForecastItem>, date: Day): (r: seq<ForecastItem>)
    ensures |r| <= |items|
  {
    if items == [] then []
    else OnDay(items[..|items| - 1], date) + (if items[|items| - 1].day == date then [items[|items| - 1]] else [])
  }

  /** An entry is kept iff it is dated `date`; entries keep their order. */
  lemma {:induction false} OnDayKeepsExactlyTheDay(items: seq<ForecastItem>, date: Day)
    ensures forall x :: x in OnDay(items, date) <==> x in items && x.day == date
  {
    if items != [] {
      var init := items[..|items| - 1];
      OnDayKeepsExactlyTheDay(init, date);
      assert items == init + [items[|items| - 1]];
    }
  }

  /** Filtering a payload in two parts filters each part and keeps them in
      order, so the day's entries keep their payload order. */
  lemma {:induction false} OnDayAppend(a: seq<ForecastItem>, b: seq<ForecastItem>, date: Day)
    ensures OnDay(a + b, date) == OnDay(a, date) + OnDay(b, date)
    decreases |b|
  {
    if b == [] {
      assert a + b == a;
    } else {
      var init := b[..|b| - 1];
      OnDayAppend(a, init, date);
      assert (a + b)[..|a + b| - 1] == a + init;
      assert (a + b)[|a + b| - 1] == b[|b| - 1];
    }
  }

  /** The loop at weather_service.py:134-138 that collects `daily_forecasts`. */
  method FilterToDay(items: seq<ForecastItem>, date: Day) returns (daily: seq<ForecastItem>)
    ensures daily == OnDay(items, date)
  {
    daily := [];
    for i := 0 to |items|
      invariant daily == OnDay(items[..i], date)
    {
      assert items[..i + 1][..i] == items[..i];
      if items[i].day == date {
        daily := daily + [items[i]];
      }
    }
    assert items[..|items|] == items;
  }

  function Temperatures(day: seq<ForecastItem>): (r: seq<real>)
    ensures |r| == |day| && forall i :: 0 <= i < |day| ==> r[i] == day[i].temp
  {
    seq(|day|, i requires 0 <= i < |day| => day[i].temp)
  }

  function Humidities(day: seq<ForecastItem>): (r: seq<real>)
    ensures |r| == |day| && forall i :: 0 <= i < |day| ==> r[i] == day[i].humidity
  {
    seq(|day|, i requires 0 <= i < |day| => day[i].humidity)
  }

  function WindSpeeds(day: seq<ForecastItem>): (r: seq<real>)
    ensures |r| == |day| && forall i :: 0 <= i < |day| ==> r[i] == day[i].windSpeed
  {
    seq(|day|, i requires 0 <= i < |day| => day[i].windSpeed)
  }

  function Precipitations(day: seq<ForecastItem>): (r: seq<real>)
    ensures |r| == |day| && forall i :: 0 <= i < |day| ==> r[i] == PrecipitationOf(day[i].rain3h, day[i].snow3h)
  {
    seq(|day|, i requires 0 <= i < |day| => PrecipitationOf(day[i].rain3h, day[i].snow3h))
  }

  /** True when some entry's `weather` list is empty (`item['weather'][0]` fails). */
  predicate MissingCondition(day: seq<ForecastItem>)
  {
    exists i :: 0 <= i < |day| && day[i].weather == []
  }

  function Descriptions(day: seq<ForecastItem>): (r: seq<string>)
    requires !MissingCondition(day)
    ensures |r| == |day| && forall i :: 0 <= i < |day| ==> r[i] == day[i].weather[0].description
  {
    seq(|day|, i requires 0 <= i < |day| && day[i].weather != [] => day[i].weather[0].description)
  }

  function MainCategories(day: seq<ForecastItem>): (r: seq<string>)
    requires !MissingCondition(day)
    ensures |r| == |day| && forall i :: 0 <= i < |day| ==> r[i] == day[i].weather[0].main
  {
    seq(|day|, i requires 0 <= i < |day| && day[i].weather != [] => day[i].weather[0].main)
  }

  /** The daily summary of one day's three-hour entries: `{}` when there are
      none, otherwise mean/min/max temperature, mean humidity and wind, summed
      precipitation and the most common description and main category. */
  function Aggregate(day: seq<ForecastItem>): Result<WeatherInfo, Exception>
  {
    if day == [] then Ok(NoInfo)
    else if MissingCondition(day) then Err(OtherException)
    else
      var temps := Temperatures(day);
      Ok(WeatherInfo(
        temperature := Some(Mean(temps)),
        temperatureMin := Some(Minimum(temps)),
        temperatureMax := Some(Maximum(temps)),
        humidity := Some(Mean(Humidities(day))),
        windSpeed := Some(Mean(WindSpeeds(day))),
        precipitation := Some(Sum(Precipitations(day))),
        description := Some(Mode(Descriptions(day))),
        main := Some(Mode(MainCategories(day)))))
  }

  /** No entries give `{}`; entries whose `weather` list is empty raise. */
  lemma AggregateEmptyDay(day: seq<ForecastItem>)
    ensures day == [] <==> Aggregate(day) == Ok(NoInfo)
    ensures day != [] && MissingCondition(day) ==> Aggregate(day) == Err(OtherException)
  {
  }

  /** The numbers of an aggregated day: the mean temperature lies between
      the day's minimum and maximum, which bound every entry, and the
      precipitation is the sum of the per-entry amounts. */
  lemma AggregateTemperatures(day: seq<ForecastItem>)
    requires day != [] && !MissingCondition(day)
    ensures var w := Aggregate(day).value;
            && w.WeatherInfo?
            && w.temperature == Some(Mean(Temperatures(day)))
            && w.humidity == Some(Mean(Humidities(day)))
            && w.windSpeed == Some(Mean(WindSpeeds(day)))
            && w.temperatureMin == Some(Minimum(Temperatures(day)))
            && w.temperatureMax == Some(Maximum(Temperatures(day)))
            && w.temperatureMin.value <= w.temperature.value <= w.temperatureMax.value
            && (forall i :: 0 <= i < |day| ==> w.temperatureMin.value <= day[i].temp <= w.temperatureMax.value)
            && w.precipitation == Some(Sum(Precipitations(day)))
            && w.dailySummary == None
  {
    var temps := Temperatures(day);
    MeanBetweenExtremes(temps);
    assert forall i :: 0 <= i < |day| ==> temps[i] == day[i].temp;
  }

  /** The words of an aggregated day: the description and the main category
      are the day's most common ones, ties going to the first seen. */
  lemma AggregateConditions(day: seq<ForecastItem>)
    requires day != [] && !MissingCondition(day)
    ensures var w := Aggregate(day).value;
            var ds, ms := Descriptions(day), MainCategories(day);
            && w.WeatherInfo? && w.description.Some? && w.main.Some?
            && (forall i :: 0 <= i < |day| ==> Count(ds, ds[i]) <= Count(ds, w.description.value))
            && (exists k :: 0 <= k < |day| && ds[k] == w.description.value &&
                  forall i :: 0 <= i < k ==> Count(ds, ds[i]) < Count(ds, w.description.value))
            && (forall i :: 0 <= i < |day| ==> Count(ms, ms[i]) <= Count(ms, w.main.value))
            && (exists k :: 0 <= k < |day| && ms[k] == w.main.value &&
                  forall i :: 0 <= i < k ==> Count(ms, ms[i]) < Count(ms, w.main.value))
  {
  }

  /** `{}` becomes "no data" (`None`); a raised exception goes through the
      fetch's `except` clauses. */
  function Settle(x: Result<WeatherInfo, Exception>): (r: Result<Option<WeatherInfo>, WeatherError>)
    ensures r.Ok? && r.value.Some? ==> r.value.value.WeatherInfo?
  {
    match x
    case Err(e) => Err(Rewrap(e))
    case Ok(NoInfo) => Ok(None)
    case Ok(w) => Ok(Some(w))
  }

  /** `_fetch_weather_from_openweathermap`. */
  function Fetched(at: Coordinates, date: Day, today: Day, net: Network): (r: Result<Option<WeatherInfo>, WeatherError>)
  {
    match SelectEndpoint(date, today)
    case None => Ok(None)
    case Some(Current) =>
      var body := Receive(net.current(at));
      if body.Err? then Settle(Err(body.error)) else Settle(NormalizeCurrent(body.value))
    case Some(Forecast) =>
      var body := Receive(net.forecast(at));
      if body.Err? then Settle(Err(body.error))
      else if body.value.list.None? then Settle(Err(OtherException))
      else Settle(Aggregate(OnDay(body.value.list.value, date)))
  }

  /** Today's weather is always a full record (unless the payload's `weather`
      list is empty), with precipitation = rain-1h, else snow-1h, else 0. */
  lemma CurrentAlwaysYieldsRecord(at: Coordinates, today: Day, net: Network)
    requires Receive(net.current(at)).Ok?
    requires Receive(net.current(at)).value.weather != Some([])
    ensures var body := Receive(net.current(at)).value;
            && Fetched(at, today, today, net).Ok?
            && Truthy(Fetched(at, today, today, net).value)
            && Fetched(at, today, today, net).value.value.precipitation == Some(PrecipitationOf(body.rain1h, body.snow1h))
            && Fetched(at, today, today, net).value.value.temperature == body.temp
            && (body.weather.Some? ==>
                  && Fetched(at, today, today, net).value.value.main == Some(body.weather.value[0].main)
                  && Fetched(at, today, today, net).value.value.description == Some(body.weather.value[0].description))
  {
  }

  /** A forecast date yields no data exactly when the payload has no entry
      dated that day. */
  lemma ForecastEmptyDay(at: Coordinates, date: Day, today: Day, net: Network)
    requires today < date <= today + ForecastHorizon
    requires Receive(net.forecast(at)).Ok? && Receive(net.forecast(at)).value.list.Some?
    ensures var items := Receive(net.forecast(at)).value.list.value;
            Fetched(at, date, today, net) == Ok(None) <==> forall x :: x in items ==> x.day != date
  {
    var items := Receive(net.forecast(at)).value.list.value;
    OnDayKeepsExactlyTheDay(items, date);
    if OnDay(items, date) != [] {
      assert OnDay(items, date)[0] in OnDay(items, date);
    }
  }

  /** A forecast date is summarised from that day's entries alone. */
  lemma ForecastUsesOnlyTheDay(at: Coordinates, date: Day, today: Day, net: Network)
    requires today < date <= today + ForecastHorizon
    requires Receive(net.forecast(at)).Ok? && Receive(net.forecast(at)).value.list.Some?
    ensures var items := Receive(net.forecast(at)).value.list.value;
            Fetched(at, date, today, net) == Settle(Aggregate(OnDay(items, date)))
  {
  }

  /** Status codes as the fetch sees them: 401, 404 and 429 are raised inside
      the `try` and re-caught as a plain WeatherAPIError; any other 4xx/5xx
      and every transport failure become OpenWeatherMapDownError. */
  lemma FetchErrorMapping(at: Coordinates, date: Day, today: Day, net: Network)
    requires SelectEndpoint(date, today).Some?
    ensures var status := if date == today then StatusOf(net.current(at)) else StatusOf(net.forecast(at));
            && (status.None? ==> Fetched(at, date, today, net) == Err(OpenWeatherMapDownError))
            && (status.Some? && status.value in {401, 404, 429} ==> Fetched(at, date, today, net) == Err(WeatherApiError))
            && (status.Some? && status.value !in {401, 404, 429} && RaisesForStatus(status.value) ==>
                  Fetched(at, date, today, net) == Err(OpenWeatherMapDownError))
  {
  }

  /** The body as the fetch sees it once the status has not raised: a body
      that does not decode gives OpenWeatherMapDownError; a current payload
      with an empty `weather` list, a forecast payload without `list`, or a
      forecast entry of the day with an empty `weather` list gives
      WeatherAPIError. */
  lemma FetchBodyMapping(at: Coordinates, date: Day, today: Day, net: Network)
    requires SelectEndpoint(date, today).Some?
    ensures date == today && net.current(at).Reply? && !RaisesForStatus(net.current(at).status) && net.current(at).body.None? ==>
              Fetched(at, date, today, net) == Err(OpenWeatherMapDownError)
    ensures date != today && net.forecast(at).Reply? && !RaisesForStatus(net.forecast(at).status) && net.forecast(at).body.None? ==>
              Fetched(at, date, today, net) == Err(OpenWeatherMapDownError)
    ensures date == today && Receive(net.current(at)).Ok? && Receive(net.current(at)).value.weather == Some([]) ==>
              Fetched(at, date, today, net) == Err(WeatherApiError)
    ensures date != today && Receive(net.forecast(at)).Ok? && Receive(net.forecast(at)).value.list.None? ==>
              Fetched(at, date, today, net) == Err(WeatherApiError)
    ensures date != today && Receive(net.forecast(at)).Ok? && Receive(net.forecast(at)).value.list.Some?
            && OnDay(Receive(net.forecast(at)).value.list.value, date) != []
            && MissingCondition(OnDay(Receive(net.forecast(at)).value.list.value, date)) ==>
              Fetched(at, date, today, net) == Err(WeatherApiError)
  {
  }

  /** The fetch never reports a typed error: only WeatherAPIError or
      OpenWeatherMapDownError come out of it, and never `{}`. */
  lemma FetchedErrorsAreUntyped(at: Coordinates, date: Day, today: Day, net: Network)
    ensures Fetched(at, date, today, net).Err? ==>
              Fetched(at, date, today, net).error in {WeatherApiError, OpenWeatherMapDownError}
    ensures Fetched(at, date, today, net).Ok? && Fetched(at, date, today, net).value.Some? ==>
              Truthy(Fetched(at, date, today, net).value) && Fetched(at, date, today, net).value.value.dailySummary == None
  {
  }

  // ---------------------------------------------------------------------
  // get_weather_data

  /** The outcome of one `get_weather_data` call: its result, the cache
      afterwards and the requests it issued, in order. */
  datatype Retrieval = Retrieval(result: Result<Option<WeatherInfo>, WeatherError>, cache: Cache, issued: seq<Request>)

  /** `get_weather_data`: a fresh, non-empty cache entry is served as is;
      otherwise geocode, fetch, and cache the result only when it is data. */
  function Retrieve(cache: Cache, location: string, date: Day, now: Timestamp, today: Day, net: Network): (got: Retrieval)
  {
    var cached := Lookup(cache, location, date, now);
    if Truthy(cached) then Retrieval(Ok(cached), cache, [])
    else
      var located := Resolve(net.geocode(location));
      if located.Err? then Retrieval(Err(located.error), cache, [GeocodeRequest(location)])
      else
        var fetched := Fetched(located.value, date, today, net);
        var issued := [GeocodeRequest(location)] + WeatherCalls(located.value, date, today);
        if fetched.Ok? && Truthy(fetched.value) then
          Retrieval(fetched, Store(cache, location, date, fetched.value.value, now), issued)
        else Retrieval(fetched, cache, issued)
  }

  /** A cache hit returns the cached record and issues no request. */
  lemma RetrieveServesFreshCache(cache: Cache, location: string, date: Day, now: Timestamp, today: Day, net: Network)
    requires Truthy(Lookup(cache, location, date, now))
    ensures Retrieve(cache, location, date, now, today, net)
         == Retrieval(Ok(Some(cache[CacheKey(location, date)].data)), cache, [])
  {
  }

  /** On a miss the first request is the geocoding one, and the cache changes
      only by storing a non-empty result under (location, date) at `now`: a
      `None` result or an error is never cached. A geocoder error is the
      result as it is, after the geocoding request alone; otherwise the
      result is the fetch's, after the geocoding request and the fetch's own
      requests. */
  lemma RetrieveOnMiss(cache: Cache, location: string, date: Day, now: Timestamp, today: Day, net: Network)
    requires !Truthy(Lookup(cache, location, date, now))
    ensures var got := Retrieve(cache, location, date, now, today, net);
            && got.issued != [] && got.issued[0] == GeocodeRequest(location)
            && (got.result.Ok? && Truthy(got.result.value) ==> got.cache == Store(cache, location, date, got.result.value.value, now))
            && (!(got.result.Ok? && Truthy(got.result.value)) ==> got.cache == cache)
    ensures var got, located := Retrieve(cache, location, date, now, today, net), Resolve(net.geocode(location));
            && (located.Err? ==> got.result == Err(located.error) && got.issued == [GeocodeRequest(location)])
            && (located.Ok? ==>
                  && got.result == Fetched(located.value, date, today, net)
                  && got.issued == [GeocodeRequest(location)] + WeatherCalls(located.value, date, today))
  {
  }

  /** The fetch's status-code mapping as `get_weather_data` reports it on a
      miss: a transport failure or a 4xx/5xx other than 401, 404 and 429
      gives OpenWeatherMapDownError, and those three give WeatherAPIError. */
  lemma RetrieveErrorMapping(cache: Cache, location: string, date: Day, now: Timestamp, today: Day, net: Network)
    requires !Truthy(Lookup(cache, location, date, now))
    requires Resolve(net.geocode(location)).Ok? && SelectEndpoint(date, today).Some?
    ensures var at := Resolve(net.geocode(location)).value;
            var status := if date == today then StatusOf(net.current(at)) else StatusOf(net.forecast(at));
            var result := Retrieve(cache, location, date, now, today, net).result;
            && (status.None? ==> result == Err(OpenWeatherMapDownError))
            && (status.Some? && status.value in {401, 404, 429} ==> result == Err(WeatherApiError))
            && (status.Some? && status.value !in {401, 404, 429} && RaisesForStatus(status.value) ==>
                  result == Err(OpenWeatherMapDownError))
  {
    var at := Resolve(net.geocode(location)).value;
    FetchErrorMapping(at, date, today, net);
  }

  /** A date no endpoint serves issues no weather request: at most the
      geocoding one, whose errors still surface; otherwise it yields `None`. */
  lemma RetrieveUnsupportedDate(cache: Cache, location: string, date: Day, now: Timestamp, today: Day, net: Network)
    requires SelectEndpoint(date, today).None?
    requires !Truthy(Lookup(cache, location, date, now))
    ensures var got := Retrieve(cache, location, date, now, today, net);
            && got.issued == [GeocodeRequest(location)]
            && got.cache == cache
            && (got.result.Ok? ==> got.result.value.None?)
            && (got.result.Err? ==> got.result.error == Resolve(net.geocode(location)).error)
  {
  }

  /** RateLimitExceededError never reaches a caller of `get_weather_data`,
      and every record it returns is non-empty. */
  lemma RetrieveNeverRateLimited(cache: Cache, location: string, date: Day, now: Timestamp, today: Day, net: Network)
    ensures Retrieve(cache, location, date, now, today, net).result != Err(RateLimitExceededError)
    ensures var r := Retrieve(cache, location, date, now, today, net).result;
            r.Ok? && r.value.Some? ==> Truthy(r.value)
  {
    var located := Resolve(net.geocode(location));
    if located.Ok? {
      FetchedErrorsAreUntyped(located.value, date, today, net);
    }
  }

  /** Holds when no cached record carries a `daily_summary`. */
  ghost predicate NoSummaries(cache: Cache)
  {
    forall k :: k in cache && cache[k].data.WeatherInfo? ==> cache[k].data.dailySummary == None
  }

  /** Holds when the record a lookup returns, if any, carries no
      `daily_summary`. */
  predicate SummaryFree(got: Retrieval)
  {
    got.result.Ok? && Truthy(got.result.value) ==> got.result.value.value.dailySummary == None
  }

  /** Neither the fetcher nor the cache it fills ever produces a
      `daily_summary`. */
  lemma RetrieveHasNoSummary(cache: Cache, location: string, date: Day, now: Timestamp, today: Day, net: Network)
    requires NoSummaries(cache)
    ensures var got := Retrieve(cache, location, date, now, today, net);
            NoSummaries(got.cache) && SummaryFree(got)
  {
    var located := Resolve(net.geocode(location));
    if located.Ok? {
      FetchedErrorsAreUntyped(located.value, date, today, net);
    }
  }

  // ---------------------------------------------------------------------
  // The service object

  /** WeatherService: the cache collection and, as an observation of the
      outside world, the log of HTTP requests it has issued. */
  class WeatherService {
    var cache: Cache
    var requests: seq<Request>

    constructor (initial: Cache)
      ensures cache == initial && requests == []
    {
      cache := initial;
      requests := [];
    }

    /** `get_cached_weather`. */
    method GetCachedWeather(location: string, date: Day, now: Timestamp) returns (r: Option<WeatherInfo>)
      ensures r == Lookup(cache, location, date, now)
    {
      var key := CacheKey(location, date);
      if key in cache && now - cache[key].timestamp < CacheTtl {
        r := Some(cache[key].data);
      } else {
        r := None;
      }
    }

    /** `set_cached_weather`: upsert under (location, date). */
    method SetCachedWeather(location: string, date: Day, data: WeatherInfo, now: Timestamp)
      modifies this`cache
      ensures cache == old(cache)[CacheKey(location, date) := CacheEntry(data, now)]
    {
      cache := Store(cache, location, date, data, now);
    }

    /** `_get_coordinates_from_location`: one geocoding request. */
    method GetCoordinates(location: string, net: Network) returns (r: Result<Coordinates, WeatherError>)
      modifies this`requests
      ensures requests == old(requests) + [GeocodeRequest(location)]
      ensures r == Resolve(net.geocode(location))
    {
      requests := requests + [GeocodeRequest(location)];
      r := Resolve(net.geocode(location));
    }

    /** `_fetch_weather_from_openweathermap`: picks the endpoint, issues at
      most one request and normalises its reply. */
    method FetchWeather(at: Coordinates, date: Day, today: Day, net: Network) returns (r: Result<Option<WeatherInfo>, WeatherError>)
      modifies this`requests
      ensures requests == old(requests) + WeatherCalls(at, date, today)
      ensures r == Fetched(at, date, today, net)
    {
      var endpoint := SelectEndpoint(date, today);
      if endpoint.None? {
        return Ok(None);
      }
      requests := requests + [WeatherRequest(endpoint.value, at)];
      var info: Result<WeatherInfo, Exception>;
      if endpoint.value == Current {
        var body := Receive(net.current(at));
        if body.Err? {
          info := Err(body.error);
        } else {
          info := NormalizeCurrent(body.value);
        }
      } else {
        var body := Receive(net.forecast(at));
        if body.Err? {
          info := Err(body.error);
        } else if body.value.list.None? {
          info := Err(OtherException);
        } else {
          var daily := FilterToDay(body.value.list.value, date);
          info := Aggregate(daily);
        }
      }
      r := Settle(info);
    }

    /** `get_weather_data`. */
    method GetWeatherData(location: string, date: Day, now: Timestamp, today: Day, net: Network)
      returns (r: Result<Option<WeatherInfo>, WeatherError>)
      modifies this
      ensures var got := Retrieve(old(cache), location, date, now, today, net);
              r == got.result && cache == got.cache && requests == old(requests) + got.issued
    {
      var cached := GetCachedWeather(location, date, now);
      if Truthy(cached) {
        return Ok(cached);
      }
      var located := GetCoordinates(location, net);
      if located.Err? {
        return Err(located.error);
      }
      r := FetchWeather(located.value, date, today, net);
      if r.Ok? && Truthy(r.value) {
        SetCachedWeather(location, date, r.value.value, now);
      }
    }
  }
}
