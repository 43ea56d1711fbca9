/** The AQI card: four tier helpers (background class, emoji, text colour,
    glow) and the scale label under the bar. All switch at 50, 100, 150 and
    200 and have five tiers; there is no separate tier above 300. */
module AqiDisplay {
  import AqiRoute
  import Heatmap

  /** The position of `value` among the card's five tiers. */
  function DisplayTier(value: int): (t: nat)
    ensures t <= 4
    ensures t == 0 <==> value <= 50
    ensures t == 4 <==> value > 200
  {
    if value <= 50 then 0
    else if value <= 100 then 1
    else if value <= 150 then 2
    else if value <= 200 then 3
    else 4
  }

  /** A larger index never lands in an earlier tier. */
  lemma DisplayTierMonotone(a: int, b: int)
    requires a <= b
    ensures DisplayTier(a) <= DisplayTier(b)
  {
  }

  /** `getAQIColor`. */
  function BackgroundClass(value: int): string {
    if value <= 50 then "bg-aqi-good"
    else if value <= 100 then "bg-aqi-moderate"
    else if value <= 150 then "bg-aqi-unhealthy"
    else if value <= 200 then "bg-aqi-veryUnhealthy"
    else "bg-aqi-hazardous"
  }

  /** `getAQIEmoji`. */
  function Emoji(value: int): string {
    if value <= 50 then "😀"
    else if value <= 100 then "😐"
    else if value <= 150 then "😷"
    else if value <= 200 then "🤢"
    else "⚠️"
  }

  /** `getAQITextColor`. */
  function TextColor(value: int): string {
    if value <= 50 then "text-green-500"
    else if value <= 100 then "text-yellow-500"
    else if value <= 150 then "text-orange-500"
    else if value <= 200 then "text-red-500"
    else "text-purple-500"
  }

  /** `getAQIGlowColor`. */
  function GlowClass(value: int): string {
    if value <= 50 then "shadow-[0_0_15px_rgba(0,230,0,0.5)]"
    else if value <= 100 then "shadow-[0_0_15px_rgba(255,255,0,0.5)]"
    else if value <= 150 then "shadow-[0_0_15px_rgba(255,126,0,0.5)]"
    else if value <= 200 then "shadow-[0_0_15px_rgba(255,0,0,0.5)]"
    else "shadow-[0_0_15px_rgba(153,0,76,0.5)]"
  }

  const Backgrounds: seq<string> := ["bg-aqi-good", "bg-aqi-moderate", "bg-aqi-unhealthy", "bg-aqi-veryUnhealthy", "bg-aqi-hazardous"]
  const Emojis: seq<string> := ["😀", "😐", "😷", "🤢", "⚠️"]
  const TextColors: seq<string> := ["text-green-500", "text-yellow-500", "text-orange-500", "text-red-500", "text-purple-500"]

  /** Every helper is one table read at the same tier, so all four change
      together and in scale order: a larger index never picks an earlier
      entry. */
  lemma HelpersShareTiers(value: int)
    ensures BackgroundClass(value) == Backgrounds[DisplayTier(value)]
    ensures Emoji(value) == Emojis[DisplayTier(value)]
    ensures TextColor(value) == TextColors[DisplayTier(value)]
  {
  }

  /** The glow, like the others, is the same for two indices exactly when
      they share a tier. */
  lemma GlowFollowsTier(a: int, b: int)
    ensures GlowClass(a) == GlowClass(b) <==> DisplayTier(a) == DisplayTier(b)
    ensures BackgroundClass(a) == BackgroundClass(b) <==> DisplayTier(a) == DisplayTier(b)
  {
  }

  /** The label printed over the scale bar. */
  function ScaleLabel(aqi: int): (r: string)
    ensures r == Heatmap.TipLevel(aqi).Name()
  {
    if aqi <= 50 then "Good"
    else if aqi <= 100 then "Moderate"
    else if aqi <= 150 then "Unhealthy"
    else if aqi <= 200 then "Very Unhealthy"
    else "Hazardous"
  }

  /** The scale label names the route's level for indices up to 100 and
      above 300, and a level one tier more severe from 101 to 300: 120, for
      instance, is "Unhealthy" on the scale and "Unhealthy for Sensitive
      Groups" from the route. */
  lemma ScaleLabelAgainstRoute(aqi: int)
    ensures 100 < aqi <= 300 ==>
      ScaleLabel(aqi) == AqiRoute.LevelOfRank(AqiRoute.LevelFor(aqi).Rank() + 1).Name()
      && ScaleLabel(aqi) != AqiRoute.LevelFor(aqi).Name()
    ensures !(100 < aqi <= 300) ==> ScaleLabel(aqi) == AqiRoute.LevelFor(aqi).Name()
  {
    Heatmap.TipShiftedAgainstRoute(aqi);
  }
}
