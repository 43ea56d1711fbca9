/** The shared environment context: the combined loading and error flags,
    the time of the latest update, and what `refreshAll` does. Fetch times
    are milliseconds. */
module EnvironmentContext {
  import opened Wrappers
  import opened Numeric
  import opened Http

  /** `locationLoading || weatherLoading || aqiLoading`. */
  function IsLoading(location: bool, weather: bool, aqi: bool): (r: bool)
    ensures r <==> location || weather || aqi
    ensures !r ==> !location && !weather && !aqi
  {
    location || weather || aqi
  }

  /** `Boolean(locationError || weatherError || aqiError)`: an empty error
      string counts as no error. */
  function HasError(location: Option<string>, weather: Option<string>, aqi: Option<string>): (r: bool)
    ensures r <==> ((location.Some? && location.value != "") || (weather.Some? && weather.value != "")
                    || (aqi.Some? && aqi.value != ""))
  {
    Truthy(location) || Truthy(weather) || Truthy(aqi)
  }

  /** The `lastUpdated` selection: the later of the two fetch times, or the
      one that exists, or none. */
  function LastUpdated(weatherFetch: Option<int>, aqiFetch: Option<int>): (r: Option<int>)
    ensures r.None? <==> weatherFetch.None? && aqiFetch.None?
    ensures r.Some? ==> r == weatherFetch || r == aqiFetch
    ensures weatherFetch.Some? ==> r.Some? && weatherFetch.value <= r.value
    ensures aqiFetch.Some? ==> r.Some? && aqiFetch.value <= r.value
  {
    if weatherFetch.Some? && aqiFetch.Some? then Some(Max(weatherFetch.value, aqiFetch.value))
    else if weatherFetch.Some? then weatherFetch
    else if aqiFetch.Some? then aqiFetch
    else None
  }

  /** The order of the two fetches does not matter. */
  lemma LastUpdatedSymmetric(w: Option<int>, a: Option<int>)
    ensures LastUpdated(w, a) == LastUpdated(a, w)
  {
  }

  /** What one `refreshAll` call does: whether it asks for the location,
      whether it refreshes weather and AQI, and what it returns. */
  datatype RefreshPlan = RefreshPlan(callsLocation: bool, refreshesData: bool, result: bool)

  /** `refreshAll` with the current coordinates; `locationSucceeds` is what
      `refreshLocation` would return. The location is asked for only when a
      coordinate is missing, and the data is refreshed when both
      coordinates were there or the location request succeeded. */
  function RefreshAll(latitude: Option<real>, longitude: Option<real>, locationSucceeds: bool): (p: RefreshPlan)
    ensures p.callsLocation <==> latitude.None? || longitude.None?
    ensures p.refreshesData <==> (latitude.Some? && longitude.Some?) || locationSucceeds
    ensures p.result <==> !p.callsLocation || locationSucceeds
    ensures !p.result ==> !p.refreshesData
  {
    var callsLocation := latitude.None? || longitude.None?;
    var success := if callsLocation then locationSucceeds else true;
    RefreshPlan(callsLocation, success || (latitude.Some? && longitude.Some?), success)
  }
}
