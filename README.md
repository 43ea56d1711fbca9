# EnviroGuardian core, modelled in Dafny

EnviroGuardian is a Next.js application that reports air quality and
weather for the user's position. This project models its deterministic
core and proves properties of it:

- the AQI route. This covers the EPA breakpoint interpolation in
  `calculateAQI`, the level and recommendation of each index, the OpenAQ
  station search and the OpenWeather normalisation, the GET and POST
  fallback orders, and the five-minute cache;
- the weather route. This covers weather-code lookup, country and
  location from the timezone, the forecast loop in `processWeatherData`,
  and the thirty-minute cache;
- the two history routes. These cover the parameter check, the three-part
  cache key, the period fallback, and the validate/map/filter of the
  Open-Meteo series;
- the mock assistant (keyword classifier), the location search, and the
  device-token registry of the notification route;
- the client's display logic: the weather dashboard, the camera overlay,
  the heatmap, the AQI card, notifications, recommendations, the insights
  merge and summary, the environment context, and the `useAQI` hook.

Each route and component is one module, in the form the source takes:

- **Loops become methods.** `calculateAQI`'s breakpoint scan, the OpenAQ
  station search and the forecast loop are methods with loop invariants,
  each proved equal to a specification function. Notification generation,
  which pushes onto a list step by step without a loop, is a method whose
  contract states the list it builds.
- **Module-level mutable state becomes a class.** The route caches are a
  generic `TtlCache.Cache` class with a `map` field. The device-token set
  and the search route's `dbSeeded` flag are fields of classes whose
  methods update them.
- **Pure code becomes functions.** Lemmas tie these to one another and to
  the route's levels.

Several pieces are shared:

- `Wrappers` defines `Option`.
- `Numeric` defines `Math.round` as `floor(x + 1/2)`, and `JsRem` as
  JavaScript's truncating `%`.
- `Text` holds the string helpers and `NatToString`, proved invertible.
- `Seqs` holds `find` and `filter`, with the subsequence relation.
- `Http` holds response shapes and coordinate validation.
- `HistoryRequest` holds what the two history routes share.

These conventions hold throughout:

- Times are integer milliseconds. `Date.now()` is a `now` parameter.
- Each provider's parsed answer is an input value.
- `parseFloat` and locale date formatting are function parameters.
- `Math.random()` is a parameter in `[0, 1)`.
- JavaScript `undefined`, `null` and out-of-range array reads are `None`,
  except for OpenAQ's `lastValue`. The station search tests that field
  with `!== null`, which lets `undefined` through, so there the three cases
  are kept apart (`AqiRoute.JsValue`).

For `pm25 = 10, pm10 = 200` the PM10 row 155–254 → 101–150 gives an AQI of
`round(49/99 · 45 + 101) = 123` (`AqiRoute.WorkedExamples`).

## Model

| member | source | states |
|---|---|---|
| AqiRoute.ComputeSubIndex | app/api/aqi/route.ts:196-228 | The breakpoint scan with `break`, and the above-the-top override, compute exactly `SubIndex`: 500 above the last row, otherwise the first bracket holding the value, otherwise 0 |
| AqiRoute.TablesWellFormed | app/api/aqi/route.ts:176-195 | Both breakpoint tables have increasing brackets, are sorted, and map into [0, 500] |
| AqiRoute.InterpolateWithin | app/api/aqi/route.ts:199-202 | Inside a bracket, the rounded linear interpolation stays within the bracket's AQI range |
| AqiRoute.InterpolateAtLo | app/api/aqi/route.ts:199-202 | A bracket's lower concentration maps exactly to its lower AQI |
| AqiRoute.InterpolateAtHi | app/api/aqi/route.ts:199-202 | A bracket's upper concentration maps exactly to its upper AQI |
| AqiRoute.SubIndexBounded | app/api/aqi/route.ts:196-228 | Every sub-index lies in [0, 500] |
| AqiRoute.SubIndexInRow | app/api/aqi/route.ts:198-204 | A value inside row i of a sorted table gets row i's interpolation |
| AqiRoute.SubIndexInGap | app/api/aqi/route.ts:198-211 | A value strictly between two consecutive rows matches no bracket and gets 0 |
| AqiRoute.SubIndexAboveTop | app/api/aqi/route.ts:206-211 | A value above the top breakpoint gets 500 |
| AqiRoute.RowEndsExact | app/api/aqi/route.ts:198-204 | Both ends of every row map exactly to that row's AQI ends |
| AqiRoute.BoundaryExamples | app/api/aqi/route.ts:176-211 | pm25 12.0 → 50, 12.1 → 51, 12.05 → 0; pm10 54.5 → 0 |
| AqiRoute.GapsGiveZero | app/api/aqi/route.ts:176-211 | Every pm25 in (12.0, 12.1) and every pm10 in (54, 55) gets 0 |
| AqiRoute.AqiBounds | app/api/aqi/route.ts:196-230 | The AQI is the larger of the two sub-indices, equals one of them, and lies in [0, 500] |
| AqiRoute.WorkedExamples | app/api/aqi/route.ts:172-230 | pm25 40 → 112; pm25 10 → 42; pm10 200 → 123; both together → 123; 600 → 500; 0 → 0 |
| AqiRoute.LevelFor | app/api/aqi/route.ts:234-252 | The level lies in its tier: >300 Hazardous, >200 Very Unhealthy, >150 Unhealthy, >100 Sensitive Groups, >50 Moderate, else Good |
| AqiRoute.LevelUnique | app/api/aqi/route.ts:234-252 | The tiers do not overlap: the level of an index is the only tier containing it |
| AqiRoute.LevelNamesDistinct | app/api/aqi/route.ts:234-252 | Different levels have different names |
| AqiRoute.LevelMonotone | app/api/aqi/route.ts:234-252 | A higher index never gives a less severe level |
| AqiRoute.CalculateAqi | app/api/aqi/route.ts:172-264 | The result holds the AQI of the two concentrations, the level name and recommendation of that AQI, the inputs and the time, and no source or location |
| AqiRoute.OrZero | app/api/aqi/route.ts:103-104 | `x \|\| 0` for a possibly null reading: the value when present, 0 otherwise |
| AqiRoute.LastValueOf | app/api/aqi/route.ts:78-86 | The scan leaves a non-null value iff some parameter of that name has a `lastValue` other than `null` (`undefined` included); the value is that of the last such parameter |
| AqiRoute.UndefinedLastValueSelects | app/api/aqi/route.ts:80-104 | A station whose only pm25 entry has no `lastValue` is still chosen, with PM2.5 read as `undefined \|\| 0` = 0 |
| AqiRoute.ScanParameters | app/api/aqi/route.ts:77-85 | The parameter loop of one station leaves exactly `LastValueOf` for pm25 and for pm10 |
| AqiRoute.SelectOpenAqStation | app/api/aqi/route.ts:64-112 | The nested station/parameter loops with `break` compute exactly `OpenAqReading` |
| AqiRoute.OpenAqFirstQualifying | app/api/aqi/route.ts:74-104 | The first station in order with a pm25 or pm10 value is chosen; a missing pollutant becomes 0 |
| AqiRoute.OpenAqNoQualifying | app/api/aqi/route.ts:97-100 | With no station holding either pollutant, the adapter returns null |
| AqiRoute.OpenWeatherReading | app/api/aqi/route.ts:124-164 | A reading exists iff the key is set and the list has a first entry with components; missing components read 0; a zero provider index is null |
| AqiRoute.GetFallback | app/api/aqi/route.ts:310-326 | GET asks OpenWeather first, and OpenAQ iff OpenWeather's reading is absent or zero-zero; data is usable iff either reading was |
| AqiRoute.PostFallback | app/api/aqi/route.ts:399-415 | POST asks OpenAQ first, and OpenWeather iff OpenAQ gave nothing; a zero-zero reading is accepted |
| AqiRoute.GetAndPostDisagree | app/api/aqi/route.ts:310-416 | A zero-zero reading makes GET answer 404 but is scored by POST, as AQI 0 and level Good |
| AqiRoute.Get | app/api/aqi/route.ts:267-351 | Invalid coordinates give 400 with no cache or provider use; a fresh entry under `"lat,lon"` is returned with no call; otherwise the fallback's calls are made; no usable data gives 404 and stores nothing; else the scored result with source and location is returned and stored at `now` |
| AqiRoute.Post | app/api/aqi/route.ts:361-428 | An unparsable body or a falsy lat/lon gives 400 with no side effect; a fresh entry is returned; otherwise the POST fallback; 500 with nothing stored when both sources fail; else the bare `calculateAQI` record is returned and stored |
| Http.ValidateCoordinates | app/api/aqi/route.ts:274-299 | Missing/empty parameter, unparsable number and out-of-range coordinate are distinguished exactly, in that order; valid coordinates are the parsed ones |
| TtlCache.FreshValue | app/api/aqi/route.ts:302-307 | A key is served iff it is stored and younger than the TTL, and then with the stored value |
| TtlCache.Cache.Lookup | app/api/aqi/route.ts:303-305 | `cache.get` plus the age check is `FreshValue` of the current entries |
| TtlCache.Cache.Store | app/api/aqi/route.ts:345-348 | `cache.set` replaces the key's entry with the value stamped `now`, and nothing else |
| TtlCache.Cache.constructor | app/api/aqi/route.ts:33-34 | A new cache is empty with the given TTL |
| TtlCache.StoredIsServed | app/api/aqi/route.ts:305 | A value just stored is served until its TTL elapses |
| TtlCache.ExpiredIsMissed | app/api/aqi/route.ts:305 | Once the TTL has elapsed the entry is not served |
| TtlCache.StoreIsolated | app/api/aqi/route.ts:302-348 | Storing under one key never changes what another key serves |
| WeatherRoute.GetWeatherInfo | app/api/weather/route.ts:114-152 | A listed code gives its table entry, for day or night; a missing or unlisted code gives "Unknown"/"cloud-question" |
| WeatherRoute.DayAndNightAgree | app/api/weather/route.ts:117-146 | Every table entry has the same day and night text |
| WeatherRoute.ConditionIgnoresDaylight | app/api/weather/route.ts:114-152 | The condition and icon never depend on `isDay` |
| WeatherRoute.CodeExamples | app/api/weather/route.ts:114-152 | Code 0 is "Clear Sky"/sun; codes 4 and 100 and a missing code are unknown |
| WeatherRoute.CountryFromTimezone | app/api/weather/route.ts:189-208 | INDIA iff the zone contains Asia/Kolkata; otherwise US, EU, ASIA, AFRICA, AUSTRALIA or PACIFIC iff it starts with America, Europe, Asia, Africa, Australia or Pacific; UNKNOWN iff no test matches |
| WeatherRoute.KolkataBeforeAsia | app/api/weather/route.ts:191-198 | Asia/Kolkata is INDIA despite the generic Asia prefix |
| WeatherRoute.LocationLabel | app/api/weather/route.ts:86-88 | The label is no longer than the zone, has no `/` or `_`, and has no lower-case letter |
| WeatherRoute.LocationLabelLastSegment | app/api/weather/route.ts:86-88 | The label is the last `/` segment with `_` replaced by a space, upper-cased; a name without `/`, such as UTC, is labelled whole |
| WeatherRoute.ForecastAt | app/api/weather/route.ts:52-69 | Day i's entry has the formatted date of `time[i]` and the daytime condition of its code |
| WeatherRoute.ReportOf | app/api/weather/route.ts:41-111 | One forecast entry per `daily.time` element, in order; `isDay` iff the flag is 1; UV and visibility from the current-hour slot; country and location from the timezone |
| WeatherRoute.ProcessWeatherData | app/api/weather/route.ts:41-111 | The index loop that pushes forecast days computes exactly `ReportOf` |
| WeatherRoute.NoCurrentHourDefaults | app/api/weather/route.ts:73-79 | With no slot for the current hour, UV is 0 and visibility 10 |
| WeatherRoute.CurrentHourUsed | app/api/weather/route.ts:73-79 | Otherwise the first such slot gives the UV index and the visibility in km, rounded |
| WeatherRoute.ForecastCondition | app/api/weather/route.ts:52-69 | A forecast day's condition is its code's day text, or "Unknown" |
| WeatherRoute.ForecastInOrder | app/api/weather/route.ts:52-69 | The report's day i carries the date and condition of input day i |
| WeatherRoute.Get | app/api/weather/route.ts:210-271 | Invalid coordinates give 400 with no cache or provider use; a fresh entry is returned without a fetch; no provider data gives 404 and stores nothing; else the processed report is returned and stored |
| HistoryRequest.HistoryKey | app/api/historical-aqi/route.ts:23-25 | The key is the latitude, `-`, the longitude, `-` and the period, each at its place |
| HistoryRequest.LongitudesKeptApart | app/api/historical-aqi/route.ts:23-25 | Different longitudes at the same latitude and period never share a key |
| HistoryRequest.PeriodsKeptApart | app/api/historical-aqi/route.ts:23-25 | Different periods at the same place never share a key |
| HistoryRequest.WindowFor | app/api/historical-aqi/route.ts:37-53 | weekly → 7 days, monthly → one month, anything else → 24 hours |
| HistoricalAqiRoute.ValueAt | app/api/historical-aqi/route.ts:118-125 | A missing series or a null element reads 0 |
| HistoricalAqiRoute.PointAt | app/api/historical-aqi/route.ts:105-126 | Point i carries `time[i]` and its formatted date |
| HistoricalAqiRoute.MapPoints | app/api/historical-aqi/route.ts:105-126 | One mapped point per `time` element, in order |
| HistoricalAqiRoute.ProcessHistoricalData | app/api/historical-aqi/route.ts:92-132 | Fails iff `hourly.time` is not a non-empty array; otherwise the result keeps exactly the mapped points with a positive EU or US index, each as often as mapped, in order, and is never longer than `time` |
| HistoricalAqiRoute.NoIndexSeriesNoPoints | app/api/historical-aqi/route.ts:118-130 | Without either index series every point is filtered out |
| HistoricalAqiRoute.AllIndexedAllKept | app/api/historical-aqi/route.ts:127-130 | When every hour has a positive EU index nothing is filtered out |
| HistoricalAqiRoute.Get | app/api/historical-aqi/route.ts:12-89 | A missing parameter gives 400 before the cache; a fresh entry is returned; otherwise the period's window is requested; a non-OK reply or malformed data gives 500 and stores nothing; else the points are returned and stored |
| HistoricalWeatherRoute.ElementAt | app/api/historical-weather/route.ts:118-119 | A missing series reads null; otherwise the element at that index |
| HistoricalWeatherRoute.ProcessHistoricalWeatherData | app/api/historical-weather/route.ts:92-123 | Fails iff `hourly.time` is not a non-empty array; otherwise one point per `time` element, in order, with its timestamp and that index's temperature and humidity |
| HistoricalWeatherRoute.AbsentSeriesAllNull | app/api/historical-weather/route.ts:118 | Without a temperature series every point's temperature is null |
| HistoricalWeatherRoute.Get | app/api/historical-weather/route.ts:12-89 | The same parameter check, key, freshness rule, window choice and store-only-on-success as the AQI history route |
| AskRoute.MentionsAny | app/api/ask/route.ts:57-73 | True iff one of the keywords occurs in the question |
| AskRoute.Classify | app/api/ask/route.ts:55-74 | Each category is chosen iff its keywords occur and no earlier category's do, in the order weather, airQuality, forecast, location, outdoor; none gives default |
| AskRoute.WeatherFirst | app/api/ask/route.ts:57-60 | A question containing "weather" is a weather question whatever else it mentions |
| AskRoute.PriorityExample | app/api/ask/route.ts:57-63 | "weather pollution" is classified as weather |
| AskRoute.CaseInsensitive | app/api/ask/route.ts:52-60 | A weather keyword written in any case is found once the question is lower-cased |
| AskRoute.Responses | app/api/ask/route.ts:7-38 | Every category has three replies |
| AskRoute.Pick | app/api/ask/route.ts:77-79 | The answer is one of the category's replies |
| AskRoute.Post | app/api/ask/route.ts:40-86 | A missing or empty question gives 400; otherwise the answer is one of the replies of the lower-cased question's category |
| SearchRoute.LocationSearch | app/api/search/route.ts:88-92 | An empty query finds nothing; every result is a mock location whose lower-cased name contains the query; every such location is found; results keep the list's order |
| SearchRoute.SearchIgnoresCase | app/api/search/route.ts:79-91 | A location whose name contains the query, in any case, is found |
| SearchRoute.SearchExample | app/api/search/route.ts:88-91 | "delhi" finds New Delhi |
| SearchRoute.SearchState.constructor | app/api/search/route.ts:44 | The database starts unseeded, with no seeding done |
| SearchRoute.SearchState.EnsureDbSeeded | app/api/search/route.ts:47-52 | Seeding is attempted iff the flag is not yet set; afterwards the flag is always set, because seeding catches its own errors; the database is seeded at most once |
| SearchRoute.SearchState.FindBestVectorMatch | app/api/search/route.ts:55-74 | Seeds on the first call, leaves the flag set, and returns the search's result |
| SearchRoute.SearchState.Get | app/api/search/route.ts:77-95 | The type defaults to location; only `vector` reaches the database, returning the search's result and leaving the flag set; the location branch filters with the lower-cased query and leaves the flag and seeding alone |
| SearchRoute.SearchState.Post | app/api/search/route.ts:98-120 | An unparsable body gives 500; a missing or `vector` type returns the search's result and leaves the flag set; any other type filters with the lower-cased query and leaves the flag alone |
| NotifyRoute.DeviceRegistry.constructor | app/api/notify/route.ts:5 | The registry starts empty |
| NotifyRoute.DeviceRegistry.Post | app/api/notify/route.ts:7-44 | A token without a title is added, growing the set by one only if new; only registration changes the set; a token with a title is a single-device send; no token reports the set's size as recipients, or 400 when empty; an unparsable body gives 500 |
| NotifyRoute.BroadcastMessage | app/api/notify/route.ts:33-36 | The broadcast message spells out the recipient count, readable back as that number |
| WeatherDashboard.ClockHour | components/weather-dashboard.tsx:200 | For a non-negative hour, a value in 1..12 congruent to it modulo 12 |
| WeatherDashboard.FormatTime | components/weather-dashboard.tsx:198-202 | The label is the clock hour followed by PM from noon on and AM before |
| WeatherDashboard.FormatTimeExamples | components/weather-dashboard.tsx:198-202 | 0 → "12AM", 12 → "12PM", 13 → "1PM" |
| WeatherDashboard.FormatTimeDistinct | components/weather-dashboard.tsx:198-202 | The 24 hours of a day get 24 different labels |
| WeatherDashboard.AqiTextMatchesRoute | components/weather-dashboard.tsx:215-223 | For every integer index the dashboard's text is the route's level name |
| WeatherDashboard.AqiColorFollowsText | components/weather-dashboard.tsx:205-213 | The colour changes exactly where the text changes: six tiers, six colours |
| WeatherDashboard.FormatLastUpdated | components/weather-dashboard.tsx:287-300 | Empty with no time; "just now" under a minute; "1 minute ago"; N minutes under an hour; "1 hour ago" under two hours; whole hours beyond |
| WeatherDashboard.UvLabel | components/weather-dashboard.tsx:753-756 | Low below 3, Moderate below 6, High below 8, Very High below 11, Extreme beyond, each iff |
| WeatherDashboard.HumidityLabel | components/weather-dashboard.tsx:835-836 | Low below 30, Normal below 60, High beyond, each iff |
| WeatherDashboard.VisibilityLabel | components/weather-dashboard.tsx:876-877 | Poor below 2, Moderate below 5, Good beyond, each iff |
| WeatherDashboard.FeelsLikeLabel | components/weather-dashboard.tsx:917-918 | Warmer, Cooler or Same as the feels-like temperature is above, below or equal to the measured one |
| WeatherDashboard.WindLabel | components/weather-dashboard.tsx:971-973 | Calm below 5, Light below 15, Moderate below 30, Strong beyond, each iff |
| CameraAr.CameraLevelMatchesRoute | components/camera-ar.tsx:205-212 | The overlay's level names are the route's, at the route's thresholds |
| CameraAr.CameraColorFollowsLevel | components/camera-ar.tsx:195-202 | One distinct colour per level tier |
| CameraAr.DrawOverlay | components/camera-ar.tsx:141-181 | Without an index only the no-data message; otherwise "AQI: n" in its tier colour, the given level when non-empty or else the route's level name, and the location iff both coordinates are non-zero |
| Heatmap.HeatColor | components/heatmap.tsx:22-28 | Every index above 200 gets the same colour |
| Heatmap.HeatColorTiers | components/heatmap.tsx:22-36 | Five colours, switching exactly where the tip changes |
| Heatmap.TipLevel | components/heatmap.tsx:30-36 | The tips never name the sensitive-groups level |
| Heatmap.TipShiftedAgainstRoute | components/heatmap.tsx:30-36 | From 101 to 300 the tip names a level one tier more severe than the route's; elsewhere the same level |
| Heatmap.Surroundings | components/heatmap.tsx:66-83 | Five zones, the first at the user's position with the index unchanged; the others offset ±0.01 in both coordinates, with indices max(0, a−10), min(300, a+10), max(0, a−20), min(300, a+20) |
| Heatmap.UpdateZones | components/heatmap.tsx:64-84 | Zones are rebuilt iff latitude, longitude and index are all present and non-zero; otherwise the previous zones stay |
| Heatmap.ZeroAqiDrawsNothing | components/heatmap.tsx:64 | A zero index or a zero coordinate never draws zones |
| AqiDisplay.DisplayTier | components/aqi-display.tsx:13-43 | Five tiers: the first iff at most 50, the last iff above 200 (no separate tier above 300) |
| AqiDisplay.DisplayTierMonotone | components/aqi-display.tsx:13-43 | A larger index never lands in an earlier tier |
| AqiDisplay.HelpersShareTiers | components/aqi-display.tsx:13-35 | The background, emoji and text colour are the tier's entry in one ordered table each |
| AqiDisplay.GlowFollowsTier | components/aqi-display.tsx:13-43 | The glow and the background change exactly where the tier changes |
| AqiDisplay.ScaleLabel | components/aqi-display.tsx:145 | The scale label names the heatmap tip's level |
| AqiDisplay.ScaleLabelAgainstRoute | components/aqi-display.tsx:145 | From 101 to 300 the scale names the level one tier above the route's, and differs from it; elsewhere they agree |
| Notifications.GenerateNotifications | components/notifications.tsx:120-189 | Alert, warning or update by tier, with the level/index/recommendation text; a health recommendation iff above 50, alert iff above 100, purifier advice iff above 150, stamped ten minutes earlier; so one notification up to 50 and two above; without data one waiting notice |
| Notifications.FormatAgo | components/notifications.tsx:192-203 | Rounded minutes below 59.5 minutes, rounded hours (at least 1) beyond, with "s" unless the number is 1 |
| Notifications.FormatAgoMinuteExamples | components/notifications.tsx:192-203 | 29.999 s → "0 mins ago", 30 s → "1 min ago" |
| Notifications.FormatAgoHourExamples | components/notifications.tsx:192-203 | 1 h → "1 hour ago", 90 min → "2 hours ago" |
| Notifications.Dismiss | components/notifications.tsx:205-207 | Removes exactly the notifications with that id and keeps every other one, as often as it occurs, in order |
| Notifications.DismissAbsent | components/notifications.tsx:205-207 | Dismissing an id not in the list changes nothing |
| Notifications.Visible | components/notifications.tsx:209 | A prefix of the list: all of it with `showAll`, otherwise at most two |
| Notifications.ShowMoreLabel | components/notifications.tsx:390-411 | Shown iff more than two; "Show less" with `showAll`, otherwise "Show N more" with N the hidden count |
| Notifications.GeneratedListFits | components/notifications.tsx:209-411 | A list of at most two is fully visible and has no toggle |
| Recommendations.RecommendationsFollowLevels | components/recommendations.tsx:29-144 | The tips switch exactly at the route's level thresholds; three tips per tier, four for 151–200 |
| Recommendations.HeaderNamesLevel | components/recommendations.tsx:147-197 | The header title is the route's level name plus " Air Quality", except the sensitive-groups title, which is the bare name |
| Recommendations.CardView | components/recommendations.tsx:234-262 | A null index shows the no-data view whatever `loading` says; otherwise loading, or the header and tips of the index |
| Http.NonZero | components/insights-dashboard.tsx:92-93 | `x \|\| null` on a number: null, absent and 0 all become null, any other value is kept; also the coordinate reading of hooks/use-aqi.ts:26-27 |
| InsightsDashboard.MergePoint | components/insights-dashboard.tsx:84-95 | The AQI point unchanged, with temperature and humidity from the first weather point of the same date, null without one |
| InsightsDashboard.Merge | components/insights-dashboard.tsx:83-95 | One merged point per AQI point, in order, each keeping the AQI point |
| InsightsDashboard.LoadedData | components/insights-dashboard.tsx:51-104 | Unchanged without both coordinates; the merge when both fetches succeed and the AQI history is a non-empty array; empty otherwise |
| InsightsDashboard.MaxAqi | components/insights-dashboard.tsx:456 | The largest EU index, null counting as 0; absent (−Infinity) for no data |
| InsightsDashboard.AverageAqi | components/insights-dashboard.tsx:447 | Absent (NaN) exactly for no data |
| InsightsDashboard.SumEuAtMost | components/insights-dashboard.tsx:447 | The summed index is at most the count times any bound on the values |
| InsightsDashboard.AverageAtMostMax | components/insights-dashboard.tsx:447-456 | The average shown never exceeds the maximum shown, rounded |
| InsightsDashboard.MissingIndexCountsZero | components/insights-dashboard.tsx:456 | A history without EU indices has maximum 0 |
| EnvironmentContext.IsLoading | contexts/environment-context.tsx:76 | Loading iff any of the three sources is loading |
| EnvironmentContext.HasError | contexts/environment-context.tsx:79 | An error iff some error string is non-empty |
| EnvironmentContext.LastUpdated | contexts/environment-context.tsx:82-92 | None iff neither time exists; otherwise one of them, and no earlier than either |
| EnvironmentContext.LastUpdatedSymmetric | contexts/environment-context.tsx:82-92 | The order of the two fetch times does not matter |
| EnvironmentContext.RefreshAll | contexts/environment-context.tsx:95-111 | The location is requested iff a coordinate is missing; data is refreshed iff both coordinates were present or the location request succeeded; a failed refresh never fetches data |
| UseAqi.NormaliseArgs | hooks/use-aqi.ts:19-35 | Object form: falsy coordinates become null and the interval defaults to 300000; positional form only with two numbers, the third setting the interval; anything else leaves both null and the default interval |
| UseAqi.FailureMessage | hooks/use-aqi.ts:60-76 | A body without a numeric `aqi` is reported as invalid data |
| UseAqi.FetchAqi | hooks/use-aqi.ts:42-80 | No request iff a coordinate is falsy, and then only the error changes; a valid body replaces the data, clears the error and stamps the fetch time; any failure keeps the previous data and time and records its message |
| UseAqi.ZeroCoordinateNeverFetched | hooks/use-aqi.ts:44-48 | A latitude of 0 is never requested |
| UseAqi.InvalidBodyKeepsData | hooks/use-aqi.ts:68-72 | A body whose `aqi` is not a number leaves the previous data in place |
| Text.ContainsIff | app/api/ask/route.ts:57 | `includes` holds iff the needle occurs at some position |
| Text.ContainsLower | app/api/search/route.ts:90 | A contained string is still contained after both are lower-cased |
| Text.NatToStringRoundTrip | app/api/notify/route.ts:35 | The decimal rendering of a count reads back as that count |
| Text.IntToStringInjective | components/weather-dashboard.tsx:201 | Different integers render differently |
| Seqs.FindIndex | app/api/weather/route.ts:73-79 | `findIndex`: the first index satisfying the test, and none iff no element does |
| Seqs.Filter | app/api/historical-aqi/route.ts:127-130 | `filter` keeps every element that passes the test, as often as it occurs, and no other |
| Seqs.FilterIsSubsequence | app/api/historical-aqi/route.ts:127-130 | `filter` keeps an in-order subsequence |
| Seqs.FilterKeepsAll | app/api/historical-aqi/route.ts:127-130 | `filter` with a test every element passes returns the list unchanged |

## Left out

- Network calls to OpenWeather, OpenAQ, Open-Meteo and the vector database are not modelled. Each provider's parsed answer, or its absence, is an input. Timeouts, non-OK statuses inside the adapters, and thrown exceptions are folded into "no answer".
- The MongoDB vector search and the Firebase setup are foreign services. The search result is an input. Seeding catches its own errors, so it always completes. Firebase messages pushed into the notification list are not modelled, and they are the only way that list exceeds two entries.
- `parseFloat`, including partial parses such as "12abc", and JSON body parsing are parameters or `Option` inputs. A body that does not parse is `None`.
- IEEE floating point is modelled with `real` and an explicit round-half-up. NaN, infinities and binary rounding errors are not represented. An empty insights summary shows NaN and −Infinity; the model gives `None` for both.
- `Date`, locale formatting (`toLocaleString`, `getDayName`, `formatDate`, `toFixed`) and the start-date arithmetic of the history routes are left out. Times are integer milliseconds. Formatting is a function parameter. The current hour is an input.
- Unicode case mapping is restricted to ASCII letters in `ToLower`/`ToUpper`.
- `Math.random` is not modelled. The assistant's draw is a parameter in [0, 1). The heatmap's random map key is left out.
- Async ordering, React state and effects, `setInterval` refreshes, the `loading` flags while a request is in flight, and concurrent requests racing on the module-level caches are left out.
- JSX, animation variants, canvas drawing, map rendering and the camera stream are left out. Colour and class strings are kept as opaque tier tags.
- The catch-all 500 responses of the AQI, weather and ask routes are left out, because nothing in the modelled inputs can throw there. Outside the try blocks, the ask route's own JSON parse errors are left out too.
- A question, query, token, or `POST /api/aqi` `lat`/`lon` that is a non-string JSON value is left out. These are modelled as strings or absent; the AQI coordinates may also be numbers.
- AqiRoute.Post: a body that parses to JSON `null` makes the destructuring of `{ lat, lon }` throw outside any try block, so the route fails with an unhandled 500. The model has no such input: a body is either unparsable (400) or an object. A `lat` or `lon` that is `true`, an object or an array is truthy and is rendered with `String()` (`"true"`, `"[object Object]"`, the joined array) into the cache key and the provider calls. `BodyField` has no such values.
- AqiRoute.SelectOpenAqStation: when the chosen OpenAQ station has no `distance`, the log line's `distance.toFixed(2)` throws, and the adapter's catch returns null. `Station.distance` is always a number, so the model yields that station's reading.
- The weather report's sunrise, sunset and date fields are not modelled. A missing `current` field of the Open-Meteo answer is not modelled either.
- Insights averages of PM2.5 and temperature are left out. They repeat the AQI average's shape.
- The file-level mocks and stubs (trends, forecast, feedback, admin upload) are outside this core.
- The client hooks other than `useAQI` are not part of this model: `useWeather`, `useGeolocation` and their fetch logic.
- Heatmap.UpdateZones: the zone effect runs only when a dependency changes; the model computes the zones after one run.
- UseAqi.FetchAqi: the model states the state after the request completes. The intermediate `loading = true` is not modelled.
