/** The camera view's overlay: the AQI colour and level name, and which
    texts the overlay shows for the AQI, level and location it is given. */
module CameraAr {
  import opened Wrappers
  import opened Text
  import AqiRoute

  /** `getAQIColor`: one colour per tier. */
  function CameraColor(aqi: int): (r: string) {
    if aqi <= 50 then "#00E400"
    else if aqi <= 100 then "#FFFF00"
    else if aqi <= 150 then "#FF7E00"
    else if aqi <= 200 then "#FF0000"
    else if aqi <= 300 then "#99004C"
    else "#7E0023"
  }

  /** `getAQILevel`. */
  function CameraLevel(aqi: int): (r: string) {
    if aqi <= 50 then "Good"
    else if aqi <= 100 then "Moderate"
    else if aqi <= 150 then "Unhealthy for Sensitive Groups"
    else if aqi <= 200 then "Unhealthy"
    else if aqi <= 300 then "Very Unhealthy"
    else "Hazardous"
  }

  /** The overlay's level names are the route's level names at the route's
      thresholds. */
  lemma CameraLevelMatchesRoute(aqi: int)
    ensures CameraLevel(aqi) == AqiRoute.LevelFor(aqi).Name()
  {
  }

  /** Each of the six tiers has its own colour, and the colour changes
      exactly where the level changes. */
  lemma CameraColorFollowsLevel(a: int, b: int)
    ensures CameraColor(a) == CameraColor(b) <==> CameraLevel(a) == CameraLevel(b)
  {
  }

  const NoDataMessage: string := "No air quality data available"

  /** What the overlay draws: the no-data message alone, or the AQI line in
      its tier colour, the level line and, when given, the location line. */
  datatype Overlay =
    | NoData(message: string)
    | Panel(aqiText: string, color: string, levelText: string, location: Option<(real, real)>)

  /** The text selection of `drawAROverlay` (props `aqi`, `level`,
      `latitude`, `longitude`; `None` for null or absent). */
  function DrawOverlay(aqi: Option<int>, level: Option<string>, latitude: Option<real>, longitude: Option<real>): (o: Overlay)
    ensures o.NoData? <==> aqi.None?
    ensures o.NoData? ==> o.message == NoDataMessage
    ensures o.Panel? ==>
      && o.aqiText == "AQI: " + IntToString(aqi.value)
      && o.color == CameraColor(aqi.value)
      && o.levelText == (if level.Some? && level.value != "" then level.value else AqiRoute.LevelFor(aqi.value).Name())
      && (o.location.Some? <==> latitude.Some? && latitude.value != 0.0 && longitude.Some? && longitude.value != 0.0)
      && (o.location.Some? ==> o.location.value == (latitude.value, longitude.value))
  {
    if aqi.None? then NoData(NoDataMessage)
    else
      var a := aqi.value;
      var levelText := if level.Some? && level.value != "" then level.value else CameraLevel(a);
      CameraLevelMatchesRoute(a);
      var location :=
        if latitude.Some? && latitude.value != 0.0 && longitude.Some? && longitude.value != 0.0
        then Some((latitude.value, longitude.value)) else None;
      Panel("AQI: " + IntToString(a), CameraColor(a), levelText, location)
  }
}
