/** The recommendations card: tips and a header per AQI tier, and which of
    the no-data, loading and tips views is shown. Icons and colour classes
    are left out; a tip is its category and text. */
module Recommendations {
  import opened Wrappers
  import AqiRoute

  datatype Tip = Tip(category: string, text: string)

  const GoodTips: seq<Tip> := [
    Tip("Outdoor Activities", "Air quality is good. Enjoy outdoor activities and exercise."),
    Tip("Air Quality", "Perfect air conditions with minimal pollutants present."),
    Tip("Health Impact", "No health impacts expected. Suitable for everyone.")
  ]

  const ModerateTips: seq<Tip> := [
    Tip("Sensitive Groups", "Unusually sensitive people should consider reducing prolonged outdoor exertion."),
    Tip("Indoor Recommendation", "Keep windows closed during peak traffic hours to maintain indoor air quality."),
    Tip("Activity Level", "Moderate activities are fine for most people. Stay hydrated.")
  ]

  const SensitiveTips: seq<Tip> := [
    Tip("Sensitive Groups", "People with respiratory or heart disease, the elderly and children should limit prolonged outdoor exertion."),
    Tip("Indoor Air", "Consider using air purifiers indoors and keep windows closed."),
    Tip("Activity Modification", "Take more breaks during outdoor activities and avoid high-exertion exercises.")
  ]

  const UnhealthyTips: seq<Tip> := [
    Tip("Health Warning", "Everyone may begin to experience health effects. Sensitive groups should avoid outdoor activity."),
    Tip("Stay Indoors", "Use air purifiers, keep windows closed, and minimize outdoor exposure."),
    Tip("Respiratory Protection", "Consider wearing masks outdoors, especially if you have respiratory conditions."),
    Tip("Activity Restriction", "Avoid prolonged or heavy outdoor exertion. Move workouts indoors.")
  ]

  const VeryUnhealthyTips: seq<Tip> := [
    Tip("Serious Health Alert", "Everyone may experience more serious health effects. Avoid all outdoor physical activities."),
    Tip("Indoor Protection", "Stay indoors with windows sealed. Run air purifiers continuously."),
    Tip("Protective Measures", "Wear masks if going outside is necessary. Limit all outdoor exposure.")
  ]

  const HazardousTips: seq<Tip> := [
    Tip("Emergency Conditions", "Health warning of emergency conditions. Serious risk to everyone's health."),
    Tip("Strict Indoor Protocol", "Stay indoors with windows closed and air purifiers running. Seal gaps in doors/windows."),
    Tip("Essential Protection", "Wear N95 masks if going outside is absolutely necessary. Follow local health advisories.")
  ]

  /** `getRecommendations`. */
  function GetRecommendations(aqi: int): (tips: seq<Tip>) {
    if aqi <= 50 then GoodTips
    else if aqi <= 100 then ModerateTips
    else if aqi <= 150 then SensitiveTips
    else if aqi <= 200 then UnhealthyTips
    else if aqi <= 300 then VeryUnhealthyTips
    else HazardousTips
  }

  /** The tips follow the route's six categories: every category has three
      tips except "Unhealthy" (151 to 200), which has four, and two indices
      get the same tips exactly when they share a category. */
  lemma RecommendationsFollowLevels(a: int, b: int)
    ensures |GetRecommendations(a)| == (if AqiRoute.LevelFor(a) == AqiRoute.Unhealthy then 4 else 3)
    ensures GetRecommendations(a) == GetRecommendations(b) <==> AqiRoute.LevelFor(a) == AqiRoute.LevelFor(b)
  {
  }

  datatype Header = Header(title: string, description: string)

  /** The ending shared by five of the six header titles. */
  const AirQuality: string := " Air Quality"

  /** `getHeaderInfo` (title and description). */
  function GetHeaderInfo(aqi: int): (h: Header) {
    if aqi <= 50 then Header("Good" + AirQuality, "Enjoy your outdoor activities")
    else if aqi <= 100 then Header("Moderate" + AirQuality, "Acceptable for most individuals")
    else if aqi <= 150 then Header("Unhealthy for Sensitive Groups", "Take precautions if you're sensitive")
    else if aqi <= 200 then Header("Unhealthy" + AirQuality, "Everyone may experience effects")
    else if aqi <= 300 then Header("Very Unhealthy" + AirQuality, "Health alert: Serious effects possible")
    else Header("Hazardous" + AirQuality, "Health emergency: Take action now")
  }

  /** The header title is the route's level name followed by " Air
      Quality", except for the sensitive-groups category, whose title is
      the bare name. */
  lemma HeaderNamesLevel(aqi: int)
    ensures AqiRoute.LevelFor(aqi) != AqiRoute.SensitiveGroups ==>
      GetHeaderInfo(aqi).title == AqiRoute.LevelFor(aqi).Name() + AirQuality
    ensures AqiRoute.LevelFor(aqi) == AqiRoute.SensitiveGroups ==>
      GetHeaderInfo(aqi).title == AqiRoute.LevelFor(aqi).Name()
  {
  }

  datatype View = NoData | Loading | Showing(header: Header, tips: seq<Tip>)

  /** The card's content for the `aqi` and `loading` props: without an
      index the no-data view, whatever `loading` says; with one, the loading
      view while loading and the tips otherwise. */
  function CardView(aqi: Option<int>, loading: bool): (v: View)
    ensures v == NoData <==> aqi.None?
    ensures v == Loading <==> aqi.Some? && loading
    ensures v.Showing? ==> v.header == GetHeaderInfo(aqi.value) && v.tips == GetRecommendations(aqi.value)
  {
    if aqi.None? then NoData
    else if loading then Loading
    else Showing(GetHeaderInfo(aqi.value), GetRecommendations(aqi.value))
  }
}
