/** The weather route: the Open-Meteo weather-code table, the country and
    location labels derived from the IANA timezone name, the report built
    by `processWeatherData`, and `GET` with its thirty-minute cache. The
    Open-Meteo answer is an input; locale date formatting is a parameter. */
module WeatherRoute {
  import opened Wrappers
  import opened Numeric
  import opened Text
  import opened Seqs
  import opened Http
  import opened TtlCache

  // ---------------------------------------------------------------------
  // Weather codes

  /** One row of the code table. */
  datatype CodeEntry = CodeEntry(day: string, night: string, icon: string)

  /** The WMO weather interpretation codes the route knows. */
  const WeatherCodes: map<int, CodeEntry> := map[
    0 := CodeEntry("Clear Sky", "Clear Sky", "sun"),
    1 := CodeEntry("Mainly Clear", "Mainly Clear", "sun"),
    2 := CodeEntry("Partly Cloudy", "Partly Cloudy", "cloud-sun"),
    3 := CodeEntry("Overcast", "Overcast", "cloud"),
    45 := CodeEntry("Fog", "Fog", "cloud-fog"),
    48 := CodeEntry("Depositing Rime Fog", "Depositing Rime Fog", "cloud-fog"),
    51 := CodeEntry("Light Drizzle", "Light Drizzle", "cloud-drizzle"),
    53 := CodeEntry("Moderate Drizzle", "Moderate Drizzle", "cloud-drizzle"),
    55 := CodeEntry("Dense Drizzle", "Dense Drizzle", "cloud-drizzle"),
    56 := CodeEntry("Light Freezing Drizzle", "Light Freezing Drizzle", "cloud-drizzle"),
    57 := CodeEntry("Dense Freezing Drizzle", "Dense Freezing Drizzle", "cloud-drizzle"),
    61 := CodeEntry("Slight Rain", "Slight Rain", "cloud-rain"),
    63 := CodeEntry("Moderate Rain", "Moderate Rain", "cloud-rain"),
    65 := CodeEntry("Heavy Rain", "Heavy Rain", "cloud-rain"),
    66 := CodeEntry("Light Freezing Rain", "Light Freezing Rain", "cloud-rain"),
    67 := CodeEntry("Heavy Freezing Rain", "Heavy Freezing Rain", "cloud-rain"),
    71 := CodeEntry("Slight Snow Fall", "Slight Snow Fall", "cloud-snow"),
    73 := CodeEntry("Moderate Snow Fall", "Moderate Snow Fall", "cloud-snow"),
    75 := CodeEntry("Heavy Snow Fall", "Heavy Snow Fall", "cloud-snow"),
    77 := CodeEntry("Snow Grains", "Snow Grains", "cloud-snow"),
    80 := CodeEntry("Slight Rain Showers", "Slight Rain Showers", "cloud-rain"),
    81 := CodeEntry("Moderate Rain Showers", "Moderate Rain Showers", "cloud-rain"),
    82 := CodeEntry("Violent Rain Showers", "Violent Rain Showers", "cloud-rain"),
    85 := CodeEntry("Slight Snow Showers", "Slight Snow Showers", "cloud-snow"),
    86 := CodeEntry("Heavy Snow Showers", "Heavy Snow Showers", "cloud-snow"),
    95 := CodeEntry("Thunderstorm", "Thunderstorm", "cloud-lightning"),
    96 := CodeEntry("Thunderstorm with Slight Hail", "Thunderstorm with Slight Hail", "cloud-lightning"),
    99 := CodeEntry("Thunderstorm with Heavy Hail", "Thunderstorm with Heavy Hail", "cloud-lightning")
  ]

  const UnknownEntry: CodeEntry := CodeEntry("Unknown", "Unknown", "cloud-question")

  datatype WeatherInfo = WeatherInfo(condition: string, icon: string)

  /** A numeric flag in JavaScript truthiness: present and non-zero. */
  predicate TruthyNumber(x: Option<int>) {
    x.Some? && x.value != 0
  }

  /** `getWeatherInfo(code, isDay)`. A missing code (`undefined`) finds no
      row, like an unlisted one. */
  function GetWeatherInfo(code: Option<int>, isDay: Option<int>): (r: WeatherInfo)
    ensures code.Some? && code.value in WeatherCodes ==>
      r.icon == WeatherCodes[code.value].icon
      && r.condition == (if TruthyNumber(isDay) then WeatherCodes[code.value].day else WeatherCodes[code.value].night)
    ensures !(code.Some? && code.value in WeatherCodes) ==> r == WeatherInfo("Unknown", "cloud-question")
  {
    var info := if code.Some? && code.value in WeatherCodes then WeatherCodes[code.value] else UnknownEntry;
    WeatherInfo(if TruthyNumber(isDay) then info.day else info.night, info.icon)
  }

  /** Every row has the same day and night text. */
  lemma DayAndNightAgree(code: int)
    requires code in WeatherCodes
    ensures WeatherCodes[code].day == WeatherCodes[code].night
  {
  }

  /** Hence the condition never depends on daylight. */
  lemma ConditionIgnoresDaylight(code: Option<int>, a: Option<int>, b: Option<int>)
    ensures GetWeatherInfo(code, a) == GetWeatherInfo(code, b)
  {
    if code.Some? && code.value in WeatherCodes {
      DayAndNightAgree(code.value);
    }
  }

  /** Codes between listed ones, such as 4 or 100, are unknown; 0 is a
      clear sky. */
  lemma CodeExamples()
    ensures GetWeatherInfo(Some(0), Some(1)) == WeatherInfo("Clear Sky", "sun")
    ensures GetWeatherInfo(Some(4), Some(1)) == WeatherInfo("Unknown", "cloud-question")
    ensures GetWeatherInfo(Some(100), Some(0)) == WeatherInfo("Unknown", "cloud-question")
    ensures GetWeatherInfo(None, Some(1)) == WeatherInfo("Unknown", "cloud-question")
  {
  }

  // ---------------------------------------------------------------------
  // Timezone labels

  /** `getCountryFromTimezone`: a containment test for Kolkata first, then
      continent prefixes in a fixed order. */
  function CountryFromTimezone(tz: string): (r: string)
    ensures r == "INDIA" <==> Contains(tz, "Asia/Kolkata")
    ensures r == "US" <==> !Contains(tz, "Asia/Kolkata") && StartsWith(tz, "America")
    ensures r == "EU" <==> !Contains(tz, "Asia/Kolkata") && StartsWith(tz, "Europe")
    ensures r == "ASIA" <==> !Contains(tz, "Asia/Kolkata") && StartsWith(tz, "Asia")
    ensures r == "AFRICA" <==> !Contains(tz, "Asia/Kolkata") && StartsWith(tz, "Africa")
    ensures r == "AUSTRALIA" <==> !Contains(tz, "Asia/Kolkata") && StartsWith(tz, "Australia")
    ensures r == "PACIFIC" <==> !Contains(tz, "Asia/Kolkata") && StartsWith(tz, "Pacific")
    ensures r == "UNKNOWN" <==>
      !Contains(tz, "Asia/Kolkata") && !StartsWith(tz, "America") && !StartsWith(tz, "Europe")
      && !StartsWith(tz, "Asia") && !StartsWith(tz, "Africa") && !StartsWith(tz, "Australia")
      && !StartsWith(tz, "Pacific")
  {
    if Contains(tz, "Asia/Kolkata") then "INDIA"
    else if StartsWith(tz, "America") then assert tz[1] == 'm'; "US"
    else if StartsWith(tz, "Europe") then assert tz[0] == 'E'; "EU"
    else if StartsWith(tz, "Asia") then assert tz[1] == 's'; "ASIA"
    else if StartsWith(tz, "Africa") then assert tz[1] == 'f'; "AFRICA"
    else if StartsWith(tz, "Australia") then assert tz[1] == 'u'; "AUSTRALIA"
    else if StartsWith(tz, "Pacific") then assert tz[0] == 'P'; "PACIFIC"
    else "UNKNOWN"
  }

  /** Kolkata wins over the generic `Asia` prefix that it also carries, and
      the text may sit anywhere in the name. */
  lemma KolkataBeforeAsia(rest: string)
    ensures CountryFromTimezone("Asia/Kolkata" + rest) == "INDIA"
    ensures CountryFromTimezone("Etc/Asia/Kolkata") == "INDIA"
  {
    assert StartsWith("Asia/Kolkata" + rest, "Asia/Kolkata");
    ContainsAt("Etc/Asia/Kolkata", "Asia/Kolkata", 4);
  }

  /** `timezone.split('/')`'s last part with `_` turned into spaces,
      upper-cased. */
  function LocationLabel(tz: string): (r: string)
    ensures |r| <= |tz|
    ensures '/' !in r && '_' !in r
    ensures forall i :: 0 <= i < |r| ==> !('a' <= r[i] <= 'z')
  {
    var segment := LastSegment(tz, '/');
    var spaced := ReplaceAll(segment, '_', ' ');
    assert forall i :: 0 <= i < |spaced| ==> spaced[i] != '/' by {
      forall i | 0 <= i < |spaced|
        ensures spaced[i] != '/'
      {
        assert segment[i] != '/';
      }
    }
    ToUpper(spaced)
  }

  /** The label is computed from the last segment only: whatever comes
      before the last `/` does not matter, and a name without `/` (such as
      `UTC`) is labelled whole. */
  lemma LocationLabelLastSegment(prefix: string, name: string)
    requires '/' !in name
    ensures LocationLabel(prefix + "/" + name) == ToUpper(ReplaceAll(name, '_', ' '))
    ensures LocationLabel(name) == ToUpper(ReplaceAll(name, '_', ' '))
  {
    var s := prefix + "/" + name;
    assert s[|s| - |name|..] == name;
    assert s[|s| - |name| - 1] == '/';
    assert name[|name| - |LastSegment(name, '/')|..] == name;
  }

  // ---------------------------------------------------------------------
  // processWeatherData

  /** `data.current`. */
  datatype Current = Current(
    temperature: real,
    weatherCode: Option<int>,
    isDay: Option<int>,
    windSpeed: real,
    windDirection: real,
    humidity: real,
    apparentTemperature: real,
    pressure: real,
    cloudCover: real,
    precipitation: real)

  /** `data.daily`: parallel arrays indexed by day. */
  datatype Daily = Daily(
    time: seq<string>,
    weatherCode: seq<int>,
    temperatureMax: seq<real>,
    temperatureMin: seq<real>,
    precipitationProbabilityMax: seq<real>,
    precipitationSum: seq<real>,
    windSpeedMax: seq<real>,
    uvIndexMax: seq<real>)

  /** `data.hourly`, with each `time` reduced to its local hour. */
  datatype Hourly = Hourly(hours: seq<int>, uvIndex: seq<real>, visibility: seq<real>)

  datatype WeatherData = WeatherData(current: Current, daily: Daily, hourly: Hourly, timezone: string)

  /** One forecast day. A value missing from a shorter parallel array is
      `None`, where the source carries `undefined` or `NaN`. */
  datatype ForecastDay = ForecastDay(
    date: string,
    max: Option<int>,
    min: Option<int>,
    condition: string,
    icon: string,
    precipitationProbability: Option<real>,
    precipitationSum: Option<real>,
    windSpeed: Option<real>,
    uvIndex: Option<real>)

  datatype WeatherReport = WeatherReport(
    temperature: int,
    condition: string,
    icon: string,
    windSpeed: real,
    windDirection: real,
    humidity: int,
    uvIndex: Option<real>,
    feelsLike: int,
    visibility: Option<int>,
    location: string,
    country: string,
    pressure: real,
    cloudCover: real,
    precipitation: real,
    isDay: bool,
    forecast: seq<ForecastDay>)

  /** `Math.round(x * 10) / 10`: one decimal place. */
  function RoundTenth(x: real): (r: real)
    ensures x - 0.05 < r <= x + 0.05
  {
    Round(x * 10.0) as real / 10.0
  }

  function RoundOpt(x: Option<real>): Option<int> {
    if x.Some? then Some(Round(x.value)) else None
  }

  /** The forecast entry for day `i`, read from every parallel array at
      `i` and described as daytime. */
  function ForecastAt(daily: Daily, i: nat, formatDate: string -> string): (f: ForecastDay)
    requires i < |daily.time|
    ensures f.date == formatDate(daily.time[i])
    ensures f.condition == GetWeatherInfo(Nth(daily.weatherCode, i), Some(1)).condition
  {
    var info := GetWeatherInfo(Nth(daily.weatherCode, i), Some(1));
    ForecastDay(formatDate(daily.time[i]),
                RoundOpt(Nth(daily.temperatureMax, i)), RoundOpt(Nth(daily.temperatureMin, i)),
                info.condition, info.icon,
                Nth(daily.precipitationProbabilityMax, i), Nth(daily.precipitationSum, i),
                Nth(daily.windSpeedMax, i), Nth(daily.uvIndexMax, i))
  }

  /** The slot whose hour is the current one, if any. */
  function CurrentHourIndex(hourly: Hourly, currentHour: int): Option<nat> {
    FindIndex(hourly.hours, h => h == currentHour)
  }

  /** UV index of the current-hour slot, 0 without one. */
  function CurrentUv(hourly: Hourly, currentHour: int): Option<real> {
    match CurrentHourIndex(hourly, currentHour)
    case None => Some(0.0)
    case Some(k) => Nth(hourly.uvIndex, k)
  }

  /** Visibility of the current-hour slot in whole kilometres, 10 without
      one. */
  function CurrentVisibility(hourly: Hourly, currentHour: int): Option<int> {
    match CurrentHourIndex(hourly, currentHour)
    case None => Some(10)
    case Some(k) => RoundOpt(if k < |hourly.visibility| then Some(hourly.visibility[k] / 1000.0) else None)
  }

  /** The report `processWeatherData` builds. */
  function ReportOf(data: WeatherData, currentHour: int, formatDate: string -> string): (r: WeatherReport)
    ensures |r.forecast| == |data.daily.time|
    ensures forall i :: 0 <= i < |r.forecast| ==> r.forecast[i] == ForecastAt(data.daily, i, formatDate)
    ensures r.isDay <==> data.current.isDay == Some(1)
    ensures r.visibility == CurrentVisibility(data.hourly, currentHour)
    ensures r.uvIndex.Some? <==> CurrentUv(data.hourly, currentHour).Some?
    ensures r.uvIndex.Some? ==> r.uvIndex.value == RoundTenth(CurrentUv(data.hourly, currentHour).value)
    ensures r.country == CountryFromTimezone(data.timezone) && r.location == LocationLabel(data.timezone)
  {
    var info := GetWeatherInfo(data.current.weatherCode, data.current.isDay);
    var uv := CurrentUv(data.hourly, currentHour);
    WeatherReport(
      Round(data.current.temperature), info.condition, info.icon,
      RoundTenth(data.current.windSpeed), data.current.windDirection,
      Round(data.current.humidity),
      if uv.Some? then Some(RoundTenth(uv.value)) else None,
      Round(data.current.apparentTemperature),
      CurrentVisibility(data.hourly, currentHour),
      LocationLabel(data.timezone), CountryFromTimezone(data.timezone),
      data.current.pressure, data.current.cloudCover, data.current.precipitation,
      data.current.isDay == Some(1),
      seq(|data.daily.time|, i requires 0 <= i < |data.daily.time| => ForecastAt(data.daily, i, formatDate)))
  }

  /** `processWeatherData`: the forecast is pushed one day at a time by an
      index loop over `daily.time`, then the current-hour slot is looked up
      and the report assembled. */
  method ProcessWeatherData(data: WeatherData, currentHour: int, formatDate: string -> string)
    returns (r: WeatherReport)
    ensures r == ReportOf(data, currentHour, formatDate)
  {
    var forecast: seq<ForecastDay> := [];
    var i := 0;
    while i < |data.daily.time|
      invariant 0 <= i <= |data.daily.time|
      invariant |forecast| == i
      invariant forall j :: 0 <= j < i ==> forecast[j] == ForecastAt(data.daily, j, formatDate)
    {
      forecast := forecast + [ForecastAt(data.daily, i, formatDate)];
      i := i + 1;
    }
    var info := GetWeatherInfo(data.current.weatherCode, data.current.isDay);
    var uv := CurrentUv(data.hourly, currentHour);
    r := WeatherReport(
      Round(data.current.temperature), info.condition, info.icon,
      RoundTenth(data.current.windSpeed), data.current.windDirection,
      Round(data.current.humidity),
      if uv.Some? then Some(RoundTenth(uv.value)) else None,
      Round(data.current.apparentTemperature),
      CurrentVisibility(data.hourly, currentHour),
      LocationLabel(data.timezone), CountryFromTimezone(data.timezone),
      data.current.pressure, data.current.cloudCover, data.current.precipitation,
      data.current.isDay == Some(1), forecast);
  }

  /** With no hourly slot for the current hour the UV index is 0 and the
      visibility 10 km. */
  lemma NoCurrentHourDefaults(hourly: Hourly, currentHour: int)
    requires forall j :: 0 <= j < |hourly.hours| ==> hourly.hours[j] != currentHour
    ensures CurrentUv(hourly, currentHour) == Some(0.0)
    ensures CurrentVisibility(hourly, currentHour) == Some(10)
  {
    assert CurrentHourIndex(hourly, currentHour).None?;
  }

  /** With a slot for the current hour, the first such slot supplies the UV
      index and the visibility. */
  lemma CurrentHourUsed(hourly: Hourly, currentHour: int, k: nat)
    requires k < |hourly.hours| && hourly.hours[k] == currentHour
    requires forall j :: 0 <= j < k ==> hourly.hours[j] != currentHour
    requires k < |hourly.uvIndex| && k < |hourly.visibility|
    ensures CurrentUv(hourly, currentHour) == Some(hourly.uvIndex[k])
    ensures CurrentVisibility(hourly, currentHour) == Some(Round(hourly.visibility[k] / 1000.0))
  {
    FindIndexIsFirst(hourly.hours, h => h == currentHour, k);
  }

  /** A forecast day's condition is the daytime text of its code, or
      "Unknown" for a missing or unlisted code. */
  lemma ForecastCondition(daily: Daily, i: nat, formatDate: string -> string)
    requires i < |daily.time|
    ensures ForecastAt(daily, i, formatDate).condition
         == (if i < |daily.weatherCode| && daily.weatherCode[i] in WeatherCodes
             then WeatherCodes[daily.weatherCode[i]].day else "Unknown")
  {
  }

  /** Every forecast day is described in daytime terms and in the order of
      `daily.time`. */
  lemma ForecastInOrder(data: WeatherData, currentHour: int, formatDate: string -> string, i: nat)
    requires i < |data.daily.time|
    ensures ReportOf(data, currentHour, formatDate).forecast[i].date == formatDate(data.daily.time[i])
    ensures ReportOf(data, currentHour, formatDate).forecast[i].condition
         == (if i < |data.daily.weatherCode| && data.daily.weatherCode[i] in WeatherCodes
             then WeatherCodes[data.daily.weatherCode[i]].day else "Unknown")
  {
    var r := ReportOf(data, currentHour, formatDate);
    assert r.forecast[i] == ForecastAt(data.daily, i, formatDate);
    ForecastCondition(data.daily, i, formatDate);
  }

  // ---------------------------------------------------------------------
  // GET

  /** `CACHE_DURATION`: thirty minutes. */
  const CacheDuration: int := 30 * 60 * 1000

  const NoDataMessage: string := "No weather data available for this location"

  /** `GET /api/weather?lat&lon`. `openMeteo` is the parsed provider answer
      (`None` when the request failed or returned nothing); `fetched` says
      whether the provider was called. Invalid coordinates give 400 before
      the cache is read; a fresh entry is returned unchanged without a
      call; no provider data gives 404 and caches nothing; otherwise the
      processed report is returned and stored at `now`. */
  method Get(cache: Cache<WeatherReport>, lat: Option<string>, lon: Option<string>,
             parse: string -> Option<real>, now: int,
             openMeteo: Option<WeatherData>, currentHour: int, formatDate: string -> string)
    returns (resp: Response<WeatherReport>, fetched: bool)
    requires cache.ttl == CacheDuration
    modifies cache
    ensures ValidateCoordinates(lat, lon, parse).Invalid? ==>
      (resp == Error(400, ValidateCoordinates(lat, lon, parse).error.Message())
       && !fetched && cache.entries == old(cache.entries))
    ensures ValidateCoordinates(lat, lon, parse).Valid? ==>
      var key := CoordinateKey(lat.value, lon.value);
      && (old(cache.Lookup(key, now)).Some? ==>
            resp == Ok(old(cache.Lookup(key, now)).value) && !fetched && cache.entries == old(cache.entries))
      && (old(cache.Lookup(key, now)).None? ==> fetched)
      && (old(cache.Lookup(key, now)).None? && openMeteo.None? ==>
            resp == Error(404, NoDataMessage) && cache.entries == old(cache.entries))
      && (old(cache.Lookup(key, now)).None? && openMeteo.Some? ==>
            resp == Ok(ReportOf(openMeteo.value, currentHour, formatDate))
            && cache.entries == old(cache.entries)[key := (resp.body, now)])
  {
    var check := ValidateCoordinates(lat, lon, parse);
    if check.Invalid? {
      return Error(400, check.error.Message()), false;
    }
    var key := CoordinateKey(lat.value, lon.value);
    var cached := cache.Lookup(key, now);
    if cached.Some? {
      return Ok(cached.value), false;
    }
    fetched := true;
    if openMeteo.None? {
      return Error(404, NoDataMessage), fetched;
    }
    var report := ProcessWeatherData(openMeteo.value, currentHour, formatDate);
    cache.Store(key, report, now);
    resp := Ok(report);
  }
}
