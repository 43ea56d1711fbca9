/** The heatmap: five colour tiers, a tip per tier, and the five zones
    derived from the user's position and AQI. */
module Heatmap {
  import opened Wrappers
  import opened Numeric
  import AqiRoute

  /** `getColor`: five tiers, the last covering everything above 200. */
  function HeatColor(aqi: int): (r: string)
    ensures aqi > 200 ==> r == "#99004C"
  {
    if aqi <= 50 then "#00E400"
    else if aqi <= 100 then "#FFFF00"
    else if aqi <= 150 then "#FF7E00"
    else if aqi <= 200 then "#FF0000"
    else "#99004C"
  }

  /** The five colours are distinct, so tiers are told apart exactly by the
      thresholds 50, 100, 150 and 200. */
  lemma HeatColorTiers(a: int, b: int)
    ensures HeatColor(a) == HeatColor(b) <==> TipLevel(a) == TipLevel(b)
  {
  }

  /** The level `getTip` names, as a route level. */
  function TipLevel(aqi: int): (l: AqiRoute.Level)
    ensures l != AqiRoute.SensitiveGroups
  {
    if aqi > 200 then AqiRoute.Hazardous
    else if aqi > 150 then AqiRoute.VeryUnhealthy
    else if aqi > 100 then AqiRoute.Unhealthy
    else if aqi > 50 then AqiRoute.Moderate
    else AqiRoute.Good
  }

  /** `getTip`. */
  function Tip(aqi: int): (r: string)
  {
    match TipLevel(aqi)
    case Hazardous => "⚠️ Hazardous: Stay indoors!"
    case VeryUnhealthy => "😷 Very Unhealthy: Avoid outdoor activity."
    case Unhealthy => "🟠 Unhealthy: Sensitive groups beware."
    case Moderate => "🟡 Moderate: Some pollution risk."
    case _ => "🟢 Good: Air is clean!"
  }

  /** The tips name a level one tier more severe than the route's level for
      101 to 300, and the same level elsewhere. */
  lemma TipShiftedAgainstRoute(aqi: int)
    ensures 100 < aqi <= 300 ==> TipLevel(aqi).Rank() == AqiRoute.LevelFor(aqi).Rank() + 1
    ensures !(100 < aqi <= 300) ==> TipLevel(aqi) == AqiRoute.LevelFor(aqi)
  {
  }

  datatype Zone = Zone(lat: real, lon: real, aqi: int)

  /** The zones the effect sets: the user's own position first, then four
      neighbours a hundredth of a degree away diagonally, with the AQI
      lowered (not below 0) or raised (not above 300). */
  function Surroundings(lat: real, lon: real, aqi: int): (zs: seq<Zone>)
    ensures |zs| == 5 && zs[0] == Zone(lat, lon, aqi)
    ensures forall i :: 1 <= i < 5 ==>
      (zs[i].lat == lat + 0.01 || zs[i].lat == lat - 0.01) && (zs[i].lon == lon + 0.01 || zs[i].lon == lon - 0.01)
    ensures zs[1].aqi == Max(0, aqi - 10) && zs[2].aqi == Min(300, aqi + 10)
    ensures zs[3].aqi == Max(0, aqi - 20) && zs[4].aqi == Min(300, aqi + 20)
    ensures zs[1].aqi >= 0 && zs[3].aqi >= 0 && zs[2].aqi <= 300 && zs[4].aqi <= 300
  {
    [ Zone(lat, lon, aqi),
      Zone(lat + 0.01, lon + 0.01, Max(0, aqi - 10)),
      Zone(lat - 0.01, lon - 0.01, Min(300, aqi + 10)),
      Zone(lat + 0.01, lon - 0.01, Max(0, aqi - 20)),
      Zone(lat - 0.01, lon + 0.01, Min(300, aqi + 20)) ]
  }

  /** The zone effect: zones are rebuilt only when latitude, longitude and
      the AQI are all present and non-zero; otherwise the previous zones
      stay. */
  function UpdateZones(previous: seq<Zone>, latitude: Option<real>, longitude: Option<real>, aqi: Option<int>): (zs: seq<Zone>)
    ensures (latitude.Some? && latitude.value != 0.0 && longitude.Some? && longitude.value != 0.0 && aqi.Some? && aqi.value != 0)
      ==> zs == Surroundings(latitude.value, longitude.value, aqi.value)
    ensures !(latitude.Some? && latitude.value != 0.0 && longitude.Some? && longitude.value != 0.0 && aqi.Some? && aqi.value != 0)
      ==> zs == previous
  {
    if latitude.Some? && latitude.value != 0.0 && longitude.Some? && longitude.value != 0.0 && aqi.Some? && aqi.value != 0
    then Surroundings(latitude.value, longitude.value, aqi.value)
    else previous
  }

  /** Starting from no zones, a zero AQI (or a position at 0) never draws
      any zone. */
  lemma ZeroAqiDrawsNothing(latitude: Option<real>, longitude: Option<real>)
    ensures UpdateZones([], latitude, longitude, Some(0)) == []
    ensures UpdateZones([], Some(0.0), longitude, Some(100)) == []
  {
  }
}
