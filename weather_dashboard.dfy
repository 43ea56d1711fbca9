/** The weather dashboard's display helpers: the hour label of the hourly
    strip, the AQI colour and text, the "last updated" phrase, and the
    one-word labels under the UV, humidity, visibility, feels-like and wind
    readings. */
module WeatherDashboard {
  import opened Wrappers
  import opened Numeric
  import opened Text
  import AqiRoute

  // ---------------------------------------------------------------------
  // formatTime

  /** `hour % 12 || 12`: the twelve-hour clock position. */
  function ClockHour(hour: int): (h: int)
    ensures hour >= 0 ==> 1 <= h <= 12 && h % 12 == hour % 12
  {
    var m := JsRem(hour, 12);
    if m == 0 then 12 else m
  }

  /** `formatTime(hour)`: clock position followed by `AM` before noon and
      `PM` from noon on. */
  function FormatTime(hour: int): (r: string)
    ensures |r| >= 3
    ensures r[|r| - 2..] == (if hour >= 12 then "PM" else "AM")
    ensures r[..|r| - 2] == IntToString(ClockHour(hour))
  {
    var suffix := if hour >= 12 then "PM" else "AM";
    var digits := IntToString(ClockHour(hour));
    assert (digits + suffix)[..|digits|] == digits;
    digits + suffix
  }

  /** Midnight is 12AM, noon 12PM, one o'clock in the afternoon 1PM. */
  lemma FormatTimeExamples()
    ensures FormatTime(0) == "12AM"
    ensures FormatTime(12) == "12PM"
    ensures FormatTime(13) == "1PM"
  {
    assert NatToString(12) == NatToString(1) + [DigitChar(2)];
  }

  /** The 24 hours of a day get 24 different labels. */
  lemma FormatTimeDistinct(a: int, b: int)
    requires 0 <= a < 24 && 0 <= b < 24 && a != b
    ensures FormatTime(a) != FormatTime(b)
  {
    var ra := FormatTime(a);
    var rb := FormatTime(b);
    if ra == rb {
      assert (a >= 12) == (b >= 12) by {
        assert ra[|ra| - 2..] == rb[|rb| - 2..];
      }
      assert IntToString(ClockHour(a)) == IntToString(ClockHour(b));
      IntToStringInjective(ClockHour(a), ClockHour(b));
      assert false;
    }
  }

  // ---------------------------------------------------------------------
  // AQI colour and text

  /** `getAQIText`: tiers checked from the cleanest up. */
  function AqiText(aqi: int): (r: string) {
    if aqi <= 50 then "Good"
    else if aqi <= 100 then "Moderate"
    else if aqi <= 150 then "Unhealthy for Sensitive Groups"
    else if aqi <= 200 then "Unhealthy"
    else if aqi <= 300 then "Very Unhealthy"
    else "Hazardous"
  }

  /** `getAQIColor`. */
  function AqiColor(aqi: int): (r: string) {
    if aqi <= 50 then "#4ade80"
    else if aqi <= 100 then "#facc15"
    else if aqi <= 150 then "#fb923c"
    else if aqi <= 200 then "#ef4444"
    else if aqi <= 300 then "#8b5cf6"
    else "#7f1d1d"
  }

  /** For every integer index the dashboard's text is the route's level
      name: its `<=` chain and the route's `>` chain cut at the same
      places. */
  lemma AqiTextMatchesRoute(aqi: int)
    ensures AqiText(aqi) == AqiRoute.LevelFor(aqi).Name()
  {
  }

  /** The colour changes exactly where the text changes. */
  lemma AqiColorFollowsText(a: int, b: int)
    ensures AqiColor(a) == AqiColor(b) <==> AqiText(a) == AqiText(b)
  {
  }

  // ---------------------------------------------------------------------
  // formatLastUpdated

  /** Whole minutes elapsed, `Math.floor(diff / 60000)`. */
  function MinutesSince(lastUpdated: int, now: int): int {
    (now - lastUpdated) / 60000
  }

  /** `formatLastUpdated` at time `now` (milliseconds). */
  function FormatLastUpdated(lastUpdated: Option<int>, now: int): (r: string)
    ensures lastUpdated.None? <==> r == ""
    ensures lastUpdated.Some? && now - lastUpdated.value < 60000 ==> r == "just now"
    ensures lastUpdated.Some? && 60000 <= now - lastUpdated.value < 120000 ==> r == "1 minute ago"
    ensures lastUpdated.Some? && 120000 <= now - lastUpdated.value < 3600000 ==>
      r == NatToString((now - lastUpdated.value) / 60000) + " minutes ago"
    ensures lastUpdated.Some? && 3600000 <= now - lastUpdated.value < 7200000 ==> r == "1 hour ago"
    ensures lastUpdated.Some? && now - lastUpdated.value >= 7200000 ==>
      r == NatToString((now - lastUpdated.value) / 3600000) + " hours ago"
  {
    if lastUpdated.None? then ""
    else
      var diff := MinutesSince(lastUpdated.value, now);
      if diff < 1 then "just now"
      else if diff == 1 then "1 minute ago"
      else if diff < 60 then IntToString(diff) + " minutes ago"
      else
        var hours := diff / 60;
        assert hours == (now - lastUpdated.value) / 3600000;
        if hours == 1 then "1 hour ago"
        else IntToString(hours) + " hours ago"
  }

  // ---------------------------------------------------------------------
  // Reading labels

  /** UV index label. */
  function UvLabel(uv: real): (r: string)
    ensures r == "Low" <==> uv < 3.0
    ensures r == "Moderate" <==> 3.0 <= uv < 6.0
    ensures r == "High" <==> 6.0 <= uv < 8.0
    ensures r == "Very High" <==> 8.0 <= uv < 11.0
    ensures r == "Extreme" <==> uv >= 11.0
  {
    if uv < 3.0 then "Low"
    else if uv < 6.0 then "Moderate"
    else if uv < 8.0 then "High"
    else if uv < 11.0 then "Very High"
    else "Extreme"
  }

  /** Humidity label (percent). */
  function HumidityLabel(humidity: real): (r: string)
    ensures r == "Low" <==> humidity < 30.0
    ensures r == "Normal" <==> 30.0 <= humidity < 60.0
    ensures r == "High" <==> humidity >= 60.0
  {
    if humidity < 30.0 then "Low" else if humidity < 60.0 then "Normal" else "High"
  }

  /** Visibility label (kilometres). */
  function VisibilityLabel(visibility: real): (r: string)
    ensures r == "Poor" <==> visibility < 2.0
    ensures r == "Moderate" <==> 2.0 <= visibility < 5.0
    ensures r == "Good" <==> visibility >= 5.0
  {
    if visibility < 2.0 then "Poor" else if visibility < 5.0 then "Moderate" else "Good"
  }

  /** Feels-like compared with the measured temperature. */
  function FeelsLikeLabel(feelsLike: real, temperature: real): (r: string)
    ensures r == "Warmer" <==> feelsLike > temperature
    ensures r == "Cooler" <==> feelsLike < temperature
    ensures r == "Same" <==> feelsLike == temperature
  {
    if feelsLike > temperature then "Warmer"
    else if feelsLike < temperature then "Cooler"
    else "Same"
  }

  /** Wind label (km/h). */
  function WindLabel(speed: real): (r: string)
    ensures r == "Calm" <==> speed < 5.0
    ensures r == "Light" <==> 5.0 <= speed < 15.0
    ensures r == "Moderate" <==> 15.0 <= speed < 30.0
    ensures r == "Strong" <==> speed >= 30.0
  {
    if speed < 5.0 then "Calm"
    else if speed < 15.0 then "Light"
    else if speed < 30.0 then "Moderate"
    else "Strong"
  }
}
