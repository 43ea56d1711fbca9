/** The historical weather route: hourly Open-Meteo archive series turned
    into one point per hour, behind the same thirty-minute cache and key as
    the historical AQI route. */
module HistoricalWeatherRoute {
  import opened Wrappers
  import opened Http
  import opened TtlCache
  import opened HistoryRequest

  /** `data.hourly`; `time` is `None` when it is absent or not an array, a
      series `None` when absent, an element `None` where it is `null`. */
  datatype HourlyWeather = HourlyWeather(
    time: Option<seq<string>>,
    temperature: Option<seq<Option<real>>>,
    relativeHumidity: Option<seq<Option<real>>>)

  datatype WeatherPoint = WeatherPoint(
    date: string,
    timestamp: string,
    temperature: Option<real>,
    humidity: Option<real>)

  /** `series ? series[index] : null`, an index past the end reading as
      `undefined`, which is also `None` here. */
  function ElementAt(series: Option<seq<Option<real>>>, i: nat): (r: Option<real>)
    ensures series.None? ==> r.None?
    ensures series.Some? && i < |series.value| ==> r == series.value[i]
  {
    if series.Some? && i < |series.value| then series.value[i] else None
  }

  predicate WellFormed(hourly: Option<HourlyWeather>) {
    hourly.Some? && hourly.value.time.Some? && |hourly.value.time.value| > 0
  }

  /** `processHistoricalWeatherData`: `None` where the source throws,
      otherwise exactly one point per `time` entry, in order. */
  function ProcessHistoricalWeatherData(hourly: Option<HourlyWeather>, formatDate: string -> string)
    : (r: Option<seq<WeatherPoint>>)
    ensures r.Some? <==> WellFormed(hourly)
    ensures r.Some? ==> |r.value| == |hourly.value.time.value|
    ensures r.Some? ==> forall i :: 0 <= i < |r.value| ==>
      && r.value[i].timestamp == hourly.value.time.value[i]
      && r.value[i].date == formatDate(hourly.value.time.value[i])
      && r.value[i].temperature == ElementAt(hourly.value.temperature, i)
      && r.value[i].humidity == ElementAt(hourly.value.relativeHumidity, i)
  {
    if !WellFormed(hourly) then None
    else
      var h := hourly.value;
      var time := h.time.value;
      Some(seq(|time|, i requires 0 <= i < |time| =>
        WeatherPoint(formatDate(time[i]), time[i], ElementAt(h.temperature, i), ElementAt(h.relativeHumidity, i))))
  }

  /** Without a temperature series every point's temperature is null. */
  lemma AbsentSeriesAllNull(hourly: HourlyWeather, formatDate: string -> string, i: nat)
    requires WellFormed(Some(hourly)) && hourly.temperature.None?
    requires i < |hourly.time.value|
    ensures ProcessHistoricalWeatherData(Some(hourly), formatDate).value[i].temperature.None?
  {
  }

  const FailureMessage: string := "Failed to fetch historical weather data"

  /** `GET /api/historical-weather?latitude&longitude&period`, with the
      same shape as the historical AQI handler. */
  method Get(cache: Cache<seq<WeatherPoint>>, latitude: Option<string>, longitude: Option<string>,
             period: Option<string>, now: int,
             openMeteo: Fetch<Option<HourlyWeather>>, formatDate: string -> string)
    returns (resp: Response<seq<WeatherPoint>>, window: Option<Window>)
    requires cache.ttl == CacheDuration
    modifies cache
    ensures !ParamsPresent(latitude, longitude, period) ==>
      (resp == Error(400, MissingMessage) && window.None? && cache.entries == old(cache.entries))
    ensures ParamsPresent(latitude, longitude, period) ==>
      var key := HistoryKey(latitude.value, longitude.value, period.value);
      && (old(cache.Lookup(key, now)).Some? ==>
            resp == Ok(old(cache.Lookup(key, now)).value) && window.None? && cache.entries == old(cache.entries))
      && (old(cache.Lookup(key, now)).None? ==> window == Some(WindowFor(period.value)))
      && (old(cache.Lookup(key, now)).None?
          && (openMeteo.NotOk? || ProcessHistoricalWeatherData(openMeteo.body, formatDate).None?) ==>
            resp == Error(500, FailureMessage) && cache.entries == old(cache.entries))
      && (old(cache.Lookup(key, now)).None?
          && openMeteo.Received? && ProcessHistoricalWeatherData(openMeteo.body, formatDate).Some? ==>
            resp == Ok(ProcessHistoricalWeatherData(openMeteo.body, formatDate).value)
            && cache.entries == old(cache.entries)[key := (resp.body, now)])
  {
    if !ParamsPresent(latitude, longitude, period) {
      return Error(400, MissingMessage), None;
    }
    var key := HistoryKey(latitude.value, longitude.value, period.value);
    var cached := cache.Lookup(key, now);
    if cached.Some? {
      return Ok(cached.value), None;
    }
    window := Some(WindowFor(period.value));
    if openMeteo.NotOk? {
      return Error(500, FailureMessage), window;
    }
    var processed := ProcessHistoricalWeatherData(openMeteo.body, formatDate);
    if processed.None? {
      return Error(500, FailureMessage), window;
    }
    cache.Store(key, processed.value, now);
    resp := Ok(processed.value);
  }
}
