/** The event-type suitability scorer (`_calculate_suitability_score` in
    Assignment/services/event_service.py): four independent pass/fail checks
    whose weights add up, then a Good/Okay/Poor label. */
module Scoring {
  import opened Wrappers
  import opened Weather

  const OutdoorSports: string := "Outdoor Sports"
  const FormalEvents: string := "Wedding/Formal Events"

  datatype Label = Poor | Okay | Good

  /** The `(suitability_text, score)` pair. */
  datatype Rating = Rating(text: Label, score: int)

  /** The TypeError Python raises on comparing a missing (None) reading with a
      number. */
  datatype ScoringError = NoneComparison

  /** One event type's rule set: an inclusive temperature range, strict
      precipitation and wind limits, and the weight each passing check adds
      (temperature, precipitation, wind, sky condition). */
  datatype Profile = Profile(
    minTemp: real, maxTemp: real, precipLimit: real, windLimit: real,
    tempWeight: int, precipWeight: int, windWeight: int, conditionWeight: int)

  /** The two known event types; every other type has no rules. The wind
      limits are 20 km/h and 15 km/h converted to m/s. */
  function ProfileFor(eventType: string): (p: Option<Profile>)
    ensures p.Some? <==> eventType == OutdoorSports || eventType == FormalEvents
    ensures p.Some? ==> p.value.tempWeight + p.value.precipWeight + p.value.windWeight + p.value.conditionWeight == 100
    ensures p.Some? ==> 0 <= p.value.tempWeight && 0 <= p.value.precipWeight && 0 <= p.value.windWeight && 0 <= p.value.conditionWeight
  {
    if eventType == OutdoorSports then Some(Profile(15.0, 30.0, 20.0, 20.0 / 3.6, 30, 25, 20, 25))
    else if eventType == FormalEvents then Some(Profile(18.0, 28.0, 10.0, 15.0 / 3.6, 30, 30, 25, 15))
    else None
  }

  /** `weather_data.get("temperature_avg", weather_data.get("temperature"))`. */
  function TemperatureReading(w: WeatherInfo): (t: Option<real>)
    requires w.WeatherInfo?
    ensures w.temperatureAvg.Some? ==> t == w.temperatureAvg
    ensures w.temperatureAvg.None? ==> t == w.temperature
  {
    if w.temperatureAvg.Some? then w.temperatureAvg else w.temperature
  }

  /** `weather_data.get("wind_speed_avg", weather_data.get("wind_speed"))`. */
  function WindReading(w: WeatherInfo): (v: Option<real>)
    requires w.WeatherInfo?
    ensures w.windSpeedAvg.Some? ==> v == w.windSpeedAvg
    ensures w.windSpeedAvg.None? ==> v == w.windSpeed
  {
    if w.windSpeedAvg.Some? then w.windSpeedAvg else w.windSpeed
  }

  predicate TemperatureOk(p: Profile, temp: real) { p.minTemp <= temp <= p.maxTemp }
  predicate PrecipitationOk(p: Profile, precip: real) { precip < p.precipLimit }
  predicate WindOk(p: Profile, wind: real) { wind < p.windLimit }
  predicate ConditionOk(main: Option<string>) { main == Some("Clear") || main == Some("Clouds") }

  /** The accumulated `score`: the weight of every check that passes. */
  function Points(p: Profile, temp: real, precip: real, wind: real, main: Option<string>): int
  {
    (if TemperatureOk(p, temp) then p.tempWeight else 0)
    + (if PrecipitationOk(p, precip) then p.precipWeight else 0)
    + (if WindOk(p, wind) then p.windWeight else 0)
    + (if ConditionOk(main) then p.conditionWeight else 0)
  }

  /** Score 80 and up is Good, 50 and up Okay, anything lower Poor. */
  function LabelFor(score: int): (l: Label)
    ensures l == Good <==> score >= 80
    ensures l == Okay <==> 50 <= score < 80
    ensures l == Poor <==> score < 50
  {
    if score >= 80 then Good else if score >= 50 then Okay else Poor
  }

  /** `_calculate_suitability_score`. No weather (or `{}`) rates (Poor, 0); an
      unknown event type runs no check and rates (Poor, 0); a known one with a
      missing temperature, precipitation or wind reading raises. */
  function SuitabilityScore(eventType: string, w: Option<WeatherInfo>): (r: Result<Rating, ScoringError>)
    ensures !Truthy(w) ==> r == Ok(Rating(Poor, 0))
    ensures ProfileFor(eventType).None? ==> r == Ok(Rating(Poor, 0))
    ensures r.Err? <==> Truthy(w) && ProfileFor(eventType).Some?
                        && (TemperatureReading(w.value).None? || w.value.precipitation.None? || WindReading(w.value).None?)
    ensures r.Ok? ==> 0 <= r.value.score <= 100 && r.value.text == LabelFor(r.value.score)
  {
    if !Truthy(w) then Ok(Rating(Poor, 0))
    else
      var info := w.value;
      var temp, precip, wind := TemperatureReading(info), info.precipitation, WindReading(info);
      match ProfileFor(eventType)
      case None => Ok(Rating(LabelFor(0), 0))
      case Some(p) =>
        if temp.None? || precip.None? || wind.None? then Err(NoneComparison)
        else
          var score := Points(p, temp.value, precip.value, wind.value, info.main);
          Ok(Rating(LabelFor(score), score))
  }

  /** Outdoor Sports: 30 points for 15..30 °C inclusive, 25 for less than
      20 precipitation, 20 for wind under 20 km/h (20 / 3.6 m/s), 25 for a
      Clear or Clouds sky; the label follows the total. */
  lemma OutdoorSportsScore(w: WeatherInfo)
    requires w.WeatherInfo?
    requires TemperatureReading(w).Some? && w.precipitation.Some? && WindReading(w).Some?
    ensures var t, pr, wi := TemperatureReading(w).value, w.precipitation.value, WindReading(w).value;
            var score := (if 15.0 <= t <= 30.0 then 30 else 0)
                       + (if pr < 20.0 then 25 else 0)
                       + (if wi < 20.0 / 3.6 then 20 else 0)
                       + (if w.main == Some("Clear") || w.main == Some("Clouds") then 25 else 0);
            SuitabilityScore("Outdoor Sports", Some(w)) == Ok(Rating(LabelFor(score), score))
  {
  }

  /** Wedding/Formal Events: 30 points for 18..28 °C inclusive, 30 for less
      than 10 precipitation, 25 for wind under 15 km/h (15 / 3.6 m/s), 15 for
      a Clear or Clouds sky; the label follows the total. */
  lemma FormalEventsScore(w: WeatherInfo)
    requires w.WeatherInfo?
    requires TemperatureReading(w).Some? && w.precipitation.Some? && WindReading(w).Some?
    ensures var t, pr, wi := TemperatureReading(w).value, w.precipitation.value, WindReading(w).value;
            var score := (if 18.0 <= t <= 28.0 then 30 else 0)
                       + (if pr < 10.0 then 30 else 0)
                       + (if wi < 15.0 / 3.6 then 25 else 0)
                       + (if w.main == Some("Clear") || w.main == Some("Clouds") then 15 else 0);
            SuitabilityScore("Wedding/Formal Events", Some(w)) == Ok(Rating(LabelFor(score), score))
  {
  }

  /** Weather that passes all four checks scores 100 and is Good, for either
      known event type. */
  lemma AllChecksPass(eventType: string, w: WeatherInfo)
    requires ProfileFor(eventType).Some? && w.WeatherInfo?
    requires TemperatureReading(w).Some? && w.precipitation.Some? && WindReading(w).Some?
    requires var p := ProfileFor(eventType).value;
             TemperatureOk(p, TemperatureReading(w).value) && PrecipitationOk(p, w.precipitation.value)
             && WindOk(p, WindReading(w).value) && ConditionOk(w.main)
    ensures SuitabilityScore(eventType, Some(w)) == Ok(Rating(Good, 100))
  {
  }

  /** Outdoor Sports in 15..30 °C inclusive, under 20 mm, under 20/3.6 m/s,
      Clear or Clouds: (Good, 100). */
  lemma OutdoorSportsIdealDay(temp: real, precip: real, wind: real, main: string)
    requires 15.0 <= temp <= 30.0 && precip < 20.0 && wind < 20.0 / 3.6
    requires main == "Clear" || main == "Clouds"
    ensures SuitabilityScore(OutdoorSports, Some(WeatherInfo(temperature := Some(temp), precipitation := Some(precip),
                                                           windSpeed := Some(wind), main := Some(main))))
            == Ok(Rating(Good, 100))
  {
  }

  /** Wedding/Formal Events in 18..28 °C inclusive, under 10 mm, under
      15/3.6 m/s, Clear or Clouds: (Good, 100). */
  lemma FormalEventsIdealDay(temp: real, precip: real, wind: real, main: string)
    requires 18.0 <= temp <= 28.0 && precip < 10.0 && wind < 15.0 / 3.6
    requires main == "Clear" || main == "Clouds"
    ensures SuitabilityScore(FormalEvents, Some(WeatherInfo(temperature := Some(temp), precipitation := Some(precip),
                                                          windSpeed := Some(wind), main := Some(main))))
            == Ok(Rating(Good, 100))
  {
  }

  /** The boundaries: temperature ranges include both ends, precipitation and
      wind limits exclude theirs. */
  lemma CheckBoundaries()
    ensures var p := ProfileFor(OutdoorSports).value;
            TemperatureOk(p, 15.0) && TemperatureOk(p, 30.0) && !TemperatureOk(p, 14.9) && !TemperatureOk(p, 30.1)
            && !PrecipitationOk(p, 20.0) && !WindOk(p, 20.0 / 3.6)
    ensures var p := ProfileFor(FormalEvents).value;
            TemperatureOk(p, 18.0) && TemperatureOk(p, 28.0) && !TemperatureOk(p, 17.9) && !TemperatureOk(p, 28.1)
            && !PrecipitationOk(p, 10.0) && !WindOk(p, 15.0 / 3.6)
  {
  }

  /** Monotonicity: when every check that passes on the first readings also
      passes on the second, the second score is at least as high; in
      particular turning one check from fail to pass never lowers the score. */
  lemma PassingMoreNeverLowers(eventType: string, t: real, pr: real, wi: real, m: Option<string>,
                                t': real, pr': real, wi': real, m': Option<string>)
    requires ProfileFor(eventType).Some?
    requires var p := ProfileFor(eventType).value;
             (TemperatureOk(p, t) ==> TemperatureOk(p, t')) && (PrecipitationOk(p, pr) ==> PrecipitationOk(p, pr'))
             && (WindOk(p, wi) ==> WindOk(p, wi')) && (ConditionOk(m) ==> ConditionOk(m'))
    ensures var p := ProfileFor(eventType).value;
            Points(p, t, pr, wi, m) <= Points(p, t', pr', wi', m')
  {
  }

  /** `temperature_avg` and `wind_speed_avg` take precedence over
      `temperature` and `wind_speed`. */
  lemma AveragesTakePrecedence(eventType: string, w: WeatherInfo, avgTemp: real, avgWind: real)
    requires w.WeatherInfo?
    ensures SuitabilityScore(eventType, Some(w.(temperatureAvg := Some(avgTemp), windSpeedAvg := Some(avgWind))))
         == SuitabilityScore(eventType, Some(w.(temperature := Some(avgTemp), temperatureAvg := None,
                                               windSpeed := Some(avgWind), windSpeedAvg := None)))
  {
  }
}
