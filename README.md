# Weather-aware event planner: a Dafny model of the weather and analysis services

This project models the two service modules of a small event-planning
backend in Dafny, and proves properties of them:

- `Assignment/services/weather_service.py` fetches weather for a
  (location, date) pair.
  - It tries a three-hour cache first.
  - On a miss it geocodes the location.
  - It then picks an upstream endpoint from the date: current conditions for
    today, the 5-day/3-hour forecast for the next five days, nothing
    otherwise.
  - It turns the reply into one weather record. A forecast day is
    summarised by means, extremes, a sum and the most common condition.
  - It maps HTTP status codes and exceptions onto its own error classes.
- `Assignment/services/event_service.py` rates weather for an event type
  with an additive pass/fail scorer. Four analyzers are built on the scorer:
  - a trend over per-day average scores;
  - a comparison of several locations, sorted best first with errors last;
  - a search for a better date in today .. today + 5;
  - a weather-change alert.

The files:

- `wrappers.dfy` holds `Option` and `Result`.
- `stats.dfy` holds sum, mean, minimum, maximum and the most-common-value
  rule of `Counter.most_common`.
- `sorting.dfy` holds Python's stable `list.sort(key=..., reverse=True)`.
- `weather.dfy` holds the weather service.
  - The class `WeatherService` keeps the cache as a `map` and a log of the
    HTTP requests it has issued.
  - Its methods are proved against the functions `Lookup`, `Store`,
    `Resolve`, `Fetched` and `Retrieve`.
- `scoring.dfy` holds the suitability scorer.
- `text.dfy` holds the string operations of the change alert: ASCII
  `str.lower()` and the substring test `sub in s`.
- `events.dfy` holds the four analyzers and the class `EventService`.
  - The loops of the trend, comparison and alternative-date methods are
    proved against `DailyScores`, `CompareBatch` and `AlternativeSearch`.
  - The change check has no loop. Its method is proved against
    `ChangeCheck`, which combines the two lookups it makes.
  - These functions thread the cache and the request log through every
    `get_weather_data` call.

How the outside world appears in the model:

- HTTP is an injected `Network`: the reply each endpoint gives to each
  query.
- The MongoDB cache collection is a map from (location, date) to (data,
  timestamp).
- The clock is two parameters: `now` in seconds and `today` as a day
  number.
- Calendar dates are day numbers. Measurements are exact `real`s, so the
  `20 / 3.6` and `15 / 3.6` wind limits are exact.
- A weather dictionary is `WeatherInfo`. The empty dictionary `{}` is
  `NoInfo`, and a key that is absent or `null` is `None`. Python truthiness
  of an optional dictionary is `Truthy`.

Some behaviour is modelled exactly as the code is written:

- The typed errors the fetch raises for 401, 404 and 429
  (weather_service.py:108-114) are caught again by its generic `except
  Exception` (172-174). So they reach callers as a plain `WeatherAPIError`
  (`Weather.StatusMapping`, `Weather.FetchErrorMapping`). As a result
  `RateLimitExceededError` never reaches a caller of `get_weather_data`
  (`Weather.RetrieveNeverRateLimited`).
- `raise_for_status` raises only for 4xx and 5xx codes. Other non-2xx codes
  go on to the body.
- The change alert reads `daily_summary.temperature.day` and
  `daily_summary.precipitation_description`. No record the fetcher
  produces carries a `daily_summary`, nor does a cache that only the fetcher
  has filled, so on such data the check never alerts (`Events.ChangeCheckNeverAlertsOnFetchedData`). The record type
  carries `daily_summary` as an optional field so that the comparison rule
  itself is still modelled and proved (`Events.ChangeVerdictRule`).
- The scorer compares a missing reading with a number. For a known event
  type that raises `TypeError`, modelled as `Err(NoneComparison)`:
  - the location comparison records it as an entry with status 500;
  - the alternative-date search lets it escape (`AltRaised`).

## Model

| member | source | states |
|---|---|---|
| Stats.Minimum | Assignment/services/weather_service.py:154 | `min`: the result is one of the values and no value is smaller |
| Stats.Maximum | Assignment/services/weather_service.py:155 | `max`: the result is one of the values and no value is larger |
| Stats.MeanWithin | Assignment/services/weather_service.py:153 | the mean of values that all lie in [lo, hi] lies in [lo, hi] |
| Stats.MeanBetweenExtremes | Assignment/services/weather_service.py:153-155 | `min(temps) <= sum(temps)/len(temps) <= max(temps)` |
| Stats.Mode | Assignment/services/weather_service.py:149-150 | `most_common(1)[0][0]`: no value occurs more often than the result, and at the result's first occurrence every earlier value occurs strictly less often (ties go to the first value seen) |
| Sorting.SortDescSorted | Assignment/services/event_service.py:263 | the sort puts keys in descending order |
| Sorting.SortDescPermutes | Assignment/services/event_service.py:263 | the sort is a permutation of its input |
| Sorting.SortDescStable | Assignment/services/event_service.py:263 | the sort is stable: elements with equal keys keep their input order |
| Weather.SelectEndpoint | Assignment/services/weather_service.py:91-101 | current conditions iff the date is today; the forecast iff today < date <= today + 5; no endpoint iff the date is before today or after today + 5 |
| Weather.WeatherCalls | Assignment/services/weather_service.py:94-105 | a fetch issues no weather request exactly when no endpoint serves the date |
| Weather.Lookup | Assignment/services/weather_service.py:36-45 | the cached data iff an entry exists for (location, date) and `now - timestamp < 3h` (strict); otherwise nothing |
| Weather.Store | Assignment/services/weather_service.py:47-61 | an upsert: the key then holds (data, now); every other key is unchanged; no other key is added |
| Weather.StoreThenLookup | Assignment/services/weather_service.py:36-61 | a write is read back unchanged while it is under three hours old and not after; reads of other keys are unaffected |
| Weather.Resolve | Assignment/services/weather_service.py:64-81 | the first geocoding result's coordinates; an empty result gives InvalidLocationError (not re-wrapped); a failed request, a 4xx/5xx status or an undecodable body gives OpenWeatherMapDownError (the last with requests 2.27 or later, see Left out); no other error |
| Weather.StatusMapping | Assignment/services/weather_service.py:107-117 | 401, 404 and 429 end as a plain WeatherAPIError after the fetch's except clauses; other 4xx/5xx end as OpenWeatherMapDownError; other codes raise nothing |
| Weather.Receive | Assignment/services/weather_service.py:103-118 | the body is read iff the connection succeeded, the status does not raise and the body decodes; a failed connection and an undecodable body raise a RequestException (requests 2.27 or later); a raising status raises what `StatusException` gives for it |
| Weather.PrecipitationOf | Assignment/services/weather_service.py:131 | `rain or snow or 0`: rain when present and non-zero, else snow when present, else 0 |
| Weather.OnDayKeepsExactlyTheDay | Assignment/services/weather_service.py:134-138 | a forecast entry is kept iff it is dated the target day |
| Weather.OnDayAppend | Assignment/services/weather_service.py:134-138 | filtering a payload in two parts gives the two filtered parts in order, so the day's entries keep their payload order |
| Weather.FilterToDay | Assignment/services/weather_service.py:134-138 | the filtering loop collects exactly `OnDay(items, date)` |
| Weather.AggregateEmptyDay | Assignment/services/weather_service.py:140-161 | no entries on the day give `{}`; an entry without a `weather` element makes the summary raise |
| Weather.AggregateTemperatures | Assignment/services/weather_service.py:140-158 | temperature, humidity and wind are means; the minimum and maximum are `min` and `max` of the day's temperatures, so min <= mean <= max and both bound every entry; precipitation is the sum of the per-entry amounts; no `daily_summary` |
| Weather.AggregateConditions | Assignment/services/weather_service.py:146-150 | the description and the main category are the day's most frequent, ties going to the first seen |
| Weather.Settle | Assignment/services/weather_service.py:163-174 | a record that comes out is never `{}` (`{}` becomes `None`) |
| Weather.CurrentAlwaysYieldsRecord | Assignment/services/weather_service.py:120-132 | today's fetch gives a non-empty record whose precipitation is rain-1h, else snow-1h, else 0, whose temperature is the payload's, and whose `main` and `description` are those of the payload's first `weather` element |
| Weather.ForecastEmptyDay | Assignment/services/weather_service.py:133-166 | a forecast date yields `None` iff the payload has no entry dated that day |
| Weather.ForecastUsesOnlyTheDay | Assignment/services/weather_service.py:133-161 | a forecast date is summarised from that day's entries alone |
| Weather.FetchErrorMapping | Assignment/services/weather_service.py:103-174 | for a supported date: a transport failure gives OpenWeatherMapDownError; 401/404/429 give WeatherAPIError; any other 4xx/5xx gives OpenWeatherMapDownError |
| Weather.FetchBodyMapping | Assignment/services/weather_service.py:118-174 | once the status has not raised: an undecodable body gives OpenWeatherMapDownError; a current payload with an empty `weather` list, a forecast payload without `list`, or a forecast entry of the day with an empty `weather` list gives WeatherAPIError |
| Weather.FetchedErrorsAreUntyped | Assignment/services/weather_service.py:169-174 | the fetch raises only WeatherAPIError or OpenWeatherMapDownError; every record it returns is non-empty and has no `daily_summary` |
| Weather.RetrieveServesFreshCache | Assignment/services/weather_service.py:229-232 | a fresh, non-empty cache entry is returned as is; no request is issued and the cache is unchanged |
| Weather.RetrieveOnMiss | Assignment/services/weather_service.py:234-240 | on a miss the geocoding request comes first; a geocoder error is the result, after that request alone; otherwise the result is `Fetched` for the coordinates, after the geocoding request and the fetch's own requests; the cache changes only by storing a non-empty result at `now`; `None` and errors are never cached |
| Weather.RetrieveErrorMapping | Assignment/services/weather_service.py:103-117 | on a miss for a served date, `get_weather_data` reports a transport failure or a 4xx/5xx other than 401/404/429 as OpenWeatherMapDownError, and 401/404/429 as WeatherAPIError |
| Weather.RetrieveUnsupportedDate | Assignment/services/weather_service.py:96-101 | a date no endpoint serves issues only the geocoding request, leaves the cache unchanged and yields `None` or the geocoder's error |
| Weather.RetrieveNeverRateLimited | Assignment/services/weather_service.py:235-245 | `get_weather_data` never raises RateLimitExceededError and never returns `{}` |
| Weather.RetrieveHasNoSummary | Assignment/services/weather_service.py:222-240 | from a cache without `daily_summary`, neither the result nor the cache afterwards carries one |
| Weather.WeatherService.constructor | Assignment/services/weather_service.py:30-34 | the service starts on the given cache collection, which may already hold entries, with no requests issued |
| Weather.WeatherService.GetCachedWeather | Assignment/services/weather_service.py:36-45 | returns `Lookup` of the current cache and changes nothing |
| Weather.WeatherService.SetCachedWeather | Assignment/services/weather_service.py:47-62 | the cache becomes the upsert of (data, now) under (location, date) |
| Weather.WeatherService.GetCoordinates | Assignment/services/weather_service.py:64-81 | logs one geocoding request and returns `Resolve` of its reply |
| Weather.WeatherService.FetchWeather | Assignment/services/weather_service.py:83-174 | logs the one weather request of the selected endpoint (none for an unsupported date) and returns `Fetched` |
| Weather.WeatherService.GetWeatherData | Assignment/services/weather_service.py:222-245 | result, new cache and issued requests are those of `Retrieve` on the old cache |
| Scoring.ProfileFor | Assignment/services/event_service.py:65-83 | rules exist exactly for the two known event types; each type's weights are non-negative and add up to 100 (the weights and limits themselves are stated by `OutdoorSportsScore` and `FormalEventsScore`) |
| Scoring.TemperatureReading | Assignment/services/event_service.py:60 | `temperature_avg` when present, else `temperature` (a `null` average counts as absent) |
| Scoring.WindReading | Assignment/services/event_service.py:62 | `wind_speed_avg` when present, else `wind_speed` (a `null` average counts as absent) |
| Scoring.LabelFor | Assignment/services/event_service.py:85-90 | Good iff score >= 80; Okay iff 50 <= score < 80; Poor iff score < 50 |
| Scoring.SuitabilityScore | Assignment/services/event_service.py:52-90 | no weather or `{}` rates (Poor, 0); an unknown type rates (Poor, 0); it raises iff the type is known and a reading is missing; otherwise the score is in [0, 100] and labelled by the thresholds |
| Scoring.OutdoorSportsScore | Assignment/services/event_service.py:65-74 | Outdoor Sports with all readings present: 30 for 15..30 °C inclusive, 25 for precipitation < 20, 20 for wind < 20/3.6 m/s, 25 for a Clear or Clouds sky; the label follows the total |
| Scoring.FormalEventsScore | Assignment/services/event_service.py:75-83 | Wedding/Formal Events with all readings present: 30 for 18..28 °C inclusive, 30 for precipitation < 10, 25 for wind < 15/3.6 m/s, 15 for a Clear or Clouds sky; the label follows the total |
| Scoring.AllChecksPass | Assignment/services/event_service.py:65-90 | passing all four checks scores (Good, 100) for either known type |
| Scoring.OutdoorSportsIdealDay | Assignment/services/event_service.py:65-74 | Outdoor Sports at 15..30 °C, under 20 precipitation, under 20/3.6 m/s wind, Clear or Clouds: (Good, 100) |
| Scoring.FormalEventsIdealDay | Assignment/services/event_service.py:75-83 | Wedding/Formal Events at 18..28 °C, under 10 precipitation, under 15/3.6 m/s wind, Clear or Clouds: (Good, 100) |
| Scoring.CheckBoundaries | Assignment/services/event_service.py:66-81 | temperature ranges include both ends; precipitation and wind limits exclude theirs |
| Scoring.PassingMoreNeverLowers | Assignment/services/event_service.py:65-83 | if every check that passes on the first readings also passes on the second, the second score is at least as high |
| Scoring.AveragesTakePrecedence | Assignment/services/event_service.py:60-62 | rating with averages present equals rating with the averages moved into `temperature` / `wind_speed` |
| Events.ItemWeather | Assignment/services/event_service.py:202-209 | each forecast entry becomes a non-empty record whose temperature and wind readings are the entry's, whose precipitation is rain-3h, else snow-3h, else 0, and whose `main` and `description` are those of its first `weather` element |
| Events.ItemScore | Assignment/services/event_service.py:210 | scoring a forecast entry never raises and gives a score in [0, 100] |
| Events.ScoresOn | Assignment/services/event_service.py:198-214 | a date has a non-empty score list iff some entry is dated that day; every score is in [0, 100] |
| Events.DailyScores | Assignment/services/event_service.py:198-214 | `daily_suitability` has one non-empty list per distinct date |
| Events.DailyScoresStep | Assignment/services/event_service.py:212-214 | one loop step creates the date's list if needed and appends the score; no other date's list changes |
| Events.DailyAverages | Assignment/services/event_service.py:217-219 | one average per distinct date |
| Events.DailyAveragesWithin | Assignment/services/event_service.py:217-219 | every per-day average lies in [0, 100] |
| Events.Earliest | Assignment/services/event_service.py:222-227 | `sorted_dates[0]`: a date of the forecast no later than any other |
| Events.Latest | Assignment/services/event_service.py:222-228 | `sorted_dates[-1]`: a date of the forecast no earlier than any other |
| Events.TrendOf | Assignment/services/event_service.py:230-238 | Improving iff last > first + 10; Worsening iff last < first - 10; Stable iff within 10 either way, 10 included |
| Events.TrendReportAverages | Assignment/services/event_service.py:217-224 | a non-empty forecast gives a report with one average per distinct date, each in [0, 100] |
| Events.TrendReportRule | Assignment/services/event_service.py:222-240 | enough data iff at least two distinct dates; otherwise Stable; with enough data the first and last date's averages decide by the 10-point rule |
| Events.CompareEntry | Assignment/services/event_service.py:245-260 | a location is rated iff it has data and the scorer does not raise; a rating comes with the data and a score in [0, 100]; a service error is recorded with its status code; no data gives the "not available" entry without a status code; a scorer exception gives the "unexpected" entry with status 500 |
| Events.CompareErrorCodes | Assignment/services/event_service.py:257-258 | an error entry records 404 for InvalidLocationError, 429 for RateLimitExceededError, 500 for OpenWeatherMapDownError, and the fallback 500 for a plain WeatherAPIError |
| Events.CompareBatch | Assignment/services/event_service.py:243-261 | exactly one entry per location, in order, each for that location and date |
| Events.ComparisonOrder | Assignment/services/event_service.py:262-263 | the sorted list is a permutation, descending by score, with every error entry after every rated one, and equal keys in input order |
| Events.Window | Assignment/services/event_service.py:162-167 | the six dates today + 0 .. today + 5, in order |
| Events.Extend | Assignment/services/event_service.py:174-181 | a lookup error ends the search with that error; a date without data adds nothing; a scorer exception ends the search with it; otherwise exactly the date, its data and its rating are appended |
| Events.TryDate | Assignment/services/event_service.py:174-181 | one date adds at most one alternative, on that date, with data and the scorer's rating; when its lookup gives data the scorer rates, exactly that alternative is appended |
| Events.AlternativeSearchHalts | Assignment/services/event_service.py:174-176 | once an exception escapes, later dates change nothing |
| Events.AlternativeSearchAdvance | Assignment/services/event_service.py:166-181 | one tried date updates found list, cache and requests as its lookup dictates; an exception fixes the final outcome |
| Events.AlternativeSearchGrows | Assignment/services/event_service.py:166-181 | the found list only grows: a search that has not raised by a later date had not raised earlier, and the earlier list is a prefix of the later one |
| Events.AlternativeSearchAppends | Assignment/services/event_service.py:170-181 | a date that is not skipped and whose lookup gives rated data appends exactly that date, data and rating |
| Events.AlternativeSearchKeeps | Assignment/services/event_service.py:166-183 | over any dates: every date that is not skipped and whose lookup gives rated data is in the sorted result, unless the search raised |
| Events.AlternativeSearchComplete | Assignment/services/event_service.py:166-184 | completeness over today .. today + 5: every date other than the event's whose lookup gives rated data appears in the returned list with that data and rating |
| Events.FoundOnExtend | Assignment/services/event_service.py:175-181 | appending an alternative on a later date keeps the list admissible |
| Events.AlternativeSearchFinds | Assignment/services/event_service.py:166-181 | over increasing dates from today on, at most one alternative per date, dates increasing, never the event's date, each with data and its rating |
| Events.AlternativeDatesPromise | Assignment/services/event_service.py:159-184 | at most 6 alternatives, a permutation of those found, sorted by score descending, each dated in today .. today + 5, not the event's date, and with data |
| Events.Abs | Assignment/services/event_service.py:298 | `abs`: the result is non-negative and is the argument or its negation |
| Text.Lower | Assignment/services/event_service.py:301-302 | `.lower()`: same length; each upper-case ASCII letter becomes its lower-case letter, every other character is kept, and no upper-case letter remains |
| Text.ContainsIffOccurs | Assignment/services/event_service.py:312-313 | `sub in s` holds iff `sub` occurs in `s` at some index, the empty string occurring everywhere |
| Text.MissingCharNotContained | Assignment/services/event_service.py:312-313 | a text lacking one of `sub`'s characters does not contain `sub` |
| Text.MentionsAfterPrefix | Assignment/services/event_service.py:312-313 | a text ending in "rain" or "snow" mentions precipitation |
| Text.DryWithoutN | Assignment/services/event_service.py:312-313 | a text without the letter `n` mentions neither rain nor snow |
| Text.NoneIsDry | Assignment/services/event_service.py:301-313 | the default text `"none"` mentions neither rain nor snow |
| Events.TemperatureChange | Assignment/services/event_service.py:293-298 | a temperature change exists iff both day temperatures do, and is their absolute difference |
| Events.ChangeVerdictRule | Assignment/services/event_service.py:293-322 | alert iff both day temperatures differ by more than 5 or rain/snow is mentioned on one side only; otherwise no change; the temperature detail comes first and the precipitation detail last; the number of details is the number of triggers that fired |
| Events.ChangeVerdictExamples | Assignment/services/event_service.py:293-322 | the same summary on both days never alerts; a 6 °C rise or drop alone alerts with the temperature detail only |
| Events.PrecipitationFlipAlone | Assignment/services/event_service.py:304-322 | with no temperature trigger, a precipitation flip alone alerts with one detail carrying the previous and the current text |
| Events.RainAppearsAlerts | Assignment/services/event_service.py:301-322 | "Light Rain" against an absent description alerts with the details ("none", "light rain") |
| Events.SnowAppearsAlerts | Assignment/services/event_service.py:301-322 | "Snow" against "clear sky" alerts with the details ("clear sky", "snow") |
| Events.RainOnBothDaysNoChange | Assignment/services/event_service.py:301-322 | "Heavy Rain" against "light rain" is no change |
| Events.AssessChange | Assignment/services/event_service.py:304-322 | building the details one trigger at a time yields `ChangeVerdict` |
| Events.ChangeCheck | Assignment/services/event_service.py:279-290 | the day before is looked up (cache and requests) only when the event's date yields data |
| Events.ChangeCheckStopsEarly | Assignment/services/event_service.py:279-281 | no data or an error on the event's date decides the outcome (`no_data` or the error) whatever the day before would give |
| Events.ChangeCheckAfterData | Assignment/services/event_service.py:285-322 | once the event's date has data: the day before's error, or `no_previous_data` when it has none, or else the verdict on the two records' summaries |
| Events.ChangeCheckWithoutSummaries | Assignment/services/event_service.py:293-322 | two records without `daily_summary` never alert |
| Events.ChangeCheckNeverAlertsOnFetchedData | Assignment/services/event_service.py:279-322 | starting from a cache without `daily_summary`, the check never alerts |
| Events.EventService.constructor | Assignment/services/event_service.py:48-50 | the analyzers share the given weather service |
| Events.EventService.GetWeatherTrends | Assignment/services/event_service.py:186-240 | event not found, the forecast error, or `TrendsOf` of the forecast; the grouping loop keeps `daily == DailyScores(prefix)` |
| Events.EventService.CompareWeatherAcrossLocations | Assignment/services/event_service.py:242-264 | one entry per location; the result is the stable descending sort of `CompareBatch`; cache and request log as `CompareBatch` leaves them |
| Events.EventService.GetAlternativeDates | Assignment/services/event_service.py:154-184 | event not found, the escaping exception, or the sorted alternatives of `AlternativeSearch` over today .. today + 5, with its cache and requests |
| Events.EventService.CheckForSignificantWeatherChange | Assignment/services/event_service.py:267-325 | event not found, or the status, cache and requests of `ChangeCheck` over the lookups of the event's date and the day before |
| Events.EventService.CheckEventWeather | Assignment/services/event_service.py:277-325 | for an existing event, the status, cache and requests of `ChangeCheck` over the lookups of the event's date and the day before |
| Events.EventService.CompareWithDayBefore | Assignment/services/event_service.py:285-322 | once the event's date has data, the day before's lookup and the comparison give `ChangeCheck`'s status, cache and requests |

Some functions carry no contract of their own. These rows state what they
compute:

- `Weather.StatusException` and `Weather.Rewrap`: `Weather.StatusMapping`.
- `Weather.NormalizeCurrent`: `Weather.CurrentAlwaysYieldsRecord`.
- `Weather.Aggregate`: `Weather.AggregateEmptyDay`,
  `Weather.AggregateTemperatures` and `Weather.AggregateConditions`.
- `Weather.Fetched`: `Weather.CurrentAlwaysYieldsRecord`,
  `Weather.ForecastEmptyDay`, `Weather.ForecastUsesOnlyTheDay`,
  `Weather.FetchErrorMapping`, `Weather.FetchBodyMapping` and
  `Weather.FetchedErrorsAreUntyped`.
- `Weather.Retrieve`: the six `Weather.Retrieve...` lemmas.
- `Events.TrendsOf`: `Events.TrendReportAverages` and `Events.TrendReportRule`.
- `Events.StatusCode`: `Events.CompareEntry` and `Events.CompareErrorCodes`.
- `Events.ComparisonKey`: `Events.ComparisonOrder`.
- `Events.AlternativeSearch` and `Events.AlternativeKey`: the
  `Events.AlternativeSearch...` lemmas, `Events.AlternativeSearchFinds` and
  `Events.AlternativeDatesPromise`.
- `Events.ChangeVerdict`: `Events.ChangeVerdictRule`,
  `Events.ChangeVerdictExamples`, `Events.PrecipitationFlipAlone`, the
  three precipitation examples and `Events.AssessChange`.
- `Text.Contains`, `Text.OccursAt` and `Text.MentionsPrecipitation`:
  `Text.ContainsIffOccurs`, `Text.MissingCharNotContained`,
  `Text.MentionsAfterPrefix`, `Text.DryWithoutN` and `Text.NoneIsDry`.
- `Events.DayTemperature`: `Events.TemperatureChange`.
- `Events.PrecipitationText` (the lower-cased description, `"none"` when
  absent): `Events.RainAppearsAlerts`, `Events.SnowAppearsAlerts` and
  `Events.RainOnBothDaysNoChange`.

## Left out

- `Assignment/app.py` (Flask routes and HTTP status plumbing) and `66e31d6ee96cd_student_resource_3/extraction.py` (image and ML processing) are not part of this model.
- The event CRUD methods (`create_event`, `get_event`, `update_event`, `get_all_events`, `to_dict`/`from_dict`) are not modelled. Each analyzer receives the stored event, or `None` when it is not found.
- `analyze_event_weather`, `get_event_suitability` and `generate_event_reminder_summary` are not modelled. They are thin wrappers or string formatting.
- `get_hourly_forecast` and `get_historical_weather` are not modelled. They return constant errors.
- `get_5day_3hour_forecast` is not modelled because it is network-bound. `GetWeatherTrends` takes its outcome (the forecast list or its error) as a parameter.
- HTTP, MongoDB, `print` logging, the wall clock, time zones and `datetime.fromtimestamp` are replaced by the injected `Network`, the cache map, the parameters `now` and `today`, and a day number per forecast entry.
- `strptime` and ISO date strings are not modelled: dates are day numbers. `datetime.now()` is read once per analyzer call (one `now` and one `today`), where the code reads it at each cache access.
- Floating-point rounding is not modelled: measurements are exact reals.
- Error and alert message strings are not modelled, nor the formatted details (`{temp_change:.1f}`). The statuses, error classes, status codes and detail values are.
- A JSON key that is absent and one that is `null` are both `None`. So a `null` `precipitation_description`, which would raise `AttributeError` on `.lower()`, reads as `"none"`. A missing reading, once both fields are absent or `null`, raises `TypeError` as modelled.
- Scoring.TemperatureReading and Scoring.WindReading: a `null` `temperature_avg` or `wind_speed_avg` falls back to `temperature` or `wind_speed` like an absent one, where the code would pass `None` on and raise `TypeError` (event_service.py:60-67).
- KeyError and IndexError are modelled only where the code reaches them on a well-typed payload: a forecast without `list` (KeyError), and an empty `weather` list (IndexError on `[0]`). Payload entries otherwise always carry `main`, `wind` and `dt`.
- Text.Lower: lower-cases ASCII letters only, not the full Unicode case mapping of `str.lower()`.
- Python's in-place `list.sort` is modelled on values (`SortDesc` applied to the collected sequence), not as an update of the list object.
- Concurrency between requests sharing the cache is not modelled.
- The network is a fixed function of the query. Asking the same endpoint the same question twice gets the same reply, so transient failures and retries that succeed cannot be expressed.
- Weather.Resolve and Weather.Receive: an undecodable JSON body is modelled as a `RequestException`, which gives OpenWeatherMapDownError. That holds for requests 2.27 and later, where `JSONDecodeError` subclasses `RequestException`. With older versions it is a plain `ValueError`. The geocoder's error would then become a WeatherAPIError in `get_weather_data` (weather_service.py:243-245), and the fetch's error a WeatherAPIError from its generic handler (172-174).
