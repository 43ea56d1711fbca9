/** The mock assistant: a question is lower-cased, classified into the first
    category one of whose keywords it contains, and answered with one of
    that category's three canned replies, chosen at random. */
module AskRoute {
  import opened Wrappers
  import opened Numeric
  import opened Text
  import opened Http

  datatype Category = Weather | AirQuality | Forecast | Location | Outdoor | Default

  const WeatherKeywords: seq<string> := ["weather", "temperature", "hot", "cold", "warm", "cool"]
  const AirQualityKeywords: seq<string> := ["air quality", "aqi", "pollution", "pollutant"]
  const ForecastKeywords: seq<string> := ["forecast", "tomorrow", "next day", "week"]
  const LocationKeywords: seq<string> := ["location", "where", "place", "city", "area"]
  const OutdoorKeywords: seq<string> := ["outdoor", "outside", "go out", "activity"]

  /** `q.includes(k1) || q.includes(k2) || ...`, evaluated left to right. */
  function MentionsAny(q: string, keywords: seq<string>): (b: bool)
    ensures b <==> exists i :: 0 <= i < |keywords| && Contains(q, keywords[i])
  {
    if keywords == [] then false
    else Contains(q, keywords[0]) || MentionsAny(q, keywords[1..])
  }

  /** The if/else-if chain over the lower-cased question: the first
      category, in priority order, with a keyword in it wins; a question
      with none of the keywords is `Default`. */
  function Classify(lower: string): (c: Category)
    ensures c == Weather <==> MentionsAny(lower, WeatherKeywords)
    ensures c == AirQuality <==> !MentionsAny(lower, WeatherKeywords) && MentionsAny(lower, AirQualityKeywords)
    ensures c == Forecast <==>
      !MentionsAny(lower, WeatherKeywords) && !MentionsAny(lower, AirQualityKeywords)
      && MentionsAny(lower, ForecastKeywords)
    ensures c == Location <==>
      !MentionsAny(lower, WeatherKeywords) && !MentionsAny(lower, AirQualityKeywords)
      && !MentionsAny(lower, ForecastKeywords) && MentionsAny(lower, LocationKeywords)
    ensures c == Default <==>
      !MentionsAny(lower, WeatherKeywords) && !MentionsAny(lower, AirQualityKeywords)
      && !MentionsAny(lower, ForecastKeywords) && !MentionsAny(lower, LocationKeywords)
      && !MentionsAny(lower, OutdoorKeywords)
  {
    if MentionsAny(lower, WeatherKeywords) then Weather
    else if MentionsAny(lower, AirQualityKeywords) then AirQuality
    else if MentionsAny(lower, ForecastKeywords) then Forecast
    else if MentionsAny(lower, LocationKeywords) then Location
    else if MentionsAny(lower, OutdoorKeywords) then Outdoor
    else Default
  }

  /** A weather keyword wins over any other keyword in the same question,
      so "weather pollution" is a weather question. */
  lemma WeatherFirst(q: string)
    requires Contains(q, "weather")
    ensures Classify(q) == Weather
  {
    assert Contains(q, WeatherKeywords[0]);
  }

  lemma PriorityExample()
    ensures Classify("weather pollution") == Weather
  {
    WeatherFirst("weather pollution");
  }

  /** Matching ignores case: a keyword written in any mix of cases inside
      the question is found once the question is lower-cased. */
  lemma CaseInsensitive(q: string, written: string, i: nat)
    requires i < |WeatherKeywords| && ToLower(written) == WeatherKeywords[i]
    requires Contains(q, written)
    ensures Classify(ToLower(q)) == Weather
  {
    ContainsLower(q, written);
  }

  // The three canned replies of each category.
  const WeatherReply1: string := "The current weather conditions show partly cloudy skies with a temperature of 68°F. Humidity is at 45%."
  const WeatherReply2: string := "Today's forecast indicates clear skies with temperatures ranging from 65°F to 78°F. Wind speed is approximately 5 mph."
  const WeatherReply3: string := "We're expecting a mild day with temperatures around 72°F. There's a slight chance of light showers in the evening."

  const AirQualityReply1: string := "The current air quality index (AQI) is good with a value of 42. It's safe for outdoor activities."
  const AirQualityReply2: string := "The air quality in your area is moderate with an AQI of 75. Sensitive groups may want to limit prolonged outdoor exposure."
  const AirQualityReply3: string := "Today's air quality is excellent with an AQI of 35. It's a great day for outdoor activities."

  const ForecastReply1: string := "Based on the forecast, tomorrow will be sunny with a high of 75°F and a low of 60°F. The air quality is expected to remain good."
  const ForecastReply2: string := "The forecast shows a chance of rain tomorrow with temperatures ranging from 55°F to 70°F. Air quality will improve after the rain."
  const ForecastReply3: string := "The 5-day forecast indicates gradually warming temperatures with clear skies. No significant air quality concerns are expected."

  const LocationReply1: string := "Based on your device's location data, you appear to be in or near a metropolitan area. Local environmental conditions are being monitored."
  const LocationReply2: string := "Your current location has been detected. The environmental data being displayed is specific to your area."
  const LocationReply3: string := "Location services indicate you're in a region with generally good air quality standards. Local monitoring stations are providing real-time data."

  const OutdoorReply1: string := "Current conditions are favorable for outdoor activities. The UV index is moderate, so consider sun protection if you'll be outside for extended periods."
  const OutdoorReply2: string := "It's a good day to be outdoors. Air quality is good, and weather conditions are pleasant for most activities."
  const OutdoorReply3: string := "Outdoor conditions are suitable for most activities today. Pollen counts are low, and air quality is within healthy ranges."

  const DefaultReply1: string := "I'm your environmental assistant. I can provide information about weather conditions, air quality, and environmental health recommendations."
  const DefaultReply2: string := "I'm here to help with environmental information. Feel free to ask about air quality, weather conditions, or health recommendations."
  const DefaultReply3: string := "As your environmental guardian, I can assist with questions about local air quality, weather patterns, and environmental health concerns."

  function Responses(c: Category): (rs: seq<string>)
    ensures |rs| == 3
  {
    match c
    case Weather => [WeatherReply1, WeatherReply2, WeatherReply3]
    case AirQuality => [AirQualityReply1, AirQualityReply2, AirQualityReply3]
    case Forecast => [ForecastReply1, ForecastReply2, ForecastReply3]
    case Location => [LocationReply1, LocationReply2, LocationReply3]
    case Outdoor => [OutdoorReply1, OutdoorReply2, OutdoorReply3]
    case Default => [DefaultReply1, DefaultReply2, DefaultReply3]
  }

  /** `Math.floor(random * length)` for `0 <= random < 1` is a valid
      index. */
  function Pick(c: Category, random: real): (answer: string)
    requires 0.0 <= random < 1.0
    ensures answer in Responses(c)
  {
    var i := (random * 3.0).Floor;
    assert 0 <= i < 3;
    Responses(c)[i]
  }

  const NoQuestionMessage: string := "No question provided."

  /** `POST /api/ask` with `{ question }` (`None` when absent or `null`);
      `random` stands for `Math.random()`. */
  function Post(question: Option<string>, random: real): (resp: Response<string>)
    requires 0.0 <= random < 1.0
    ensures resp.Error? <==> !Truthy(question)
    ensures resp.Error? ==> resp == Error(400, NoQuestionMessage)
    ensures resp.Ok? ==> resp.body in Responses(Classify(ToLower(question.value)))
  {
    if !Truthy(question) then Error(400, NoQuestionMessage)
    else Ok(Pick(Classify(ToLower(question.value)), random))
  }
}
