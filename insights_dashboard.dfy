/** The insights dashboard: the AQI history merged with the weather history
    by date, what the page keeps after the two fetches, and the average and
    maximum AQI of the summary card. */
module InsightsDashboard {
  import opened Wrappers
  import opened Numeric
  import opened Seqs
  import opened Http
  import HistoricalWeatherRoute

  /** A point of the AQI history as the page types it; every number may be
      `null`. */
  datatype DataPoint = DataPoint(
    date: string,
    aqiEu: Option<real>,
    aqiUs: Option<real>,
    pm25: Option<real>,
    pm10: Option<real>,
    co: Option<real>,
    no2: Option<real>,
    so2: Option<real>,
    o3: Option<real>)

  /** `{ ...aqiPoint, temperature, humidity }`. */
  datatype MergedPoint = MergedPoint(point: DataPoint, temperature: Option<real>, humidity: Option<real>)

  type WeatherPoint = HistoricalWeatherRoute.WeatherPoint

  /** The `find` test: a weather point with the same date string. */
  function SameDate(date: string): WeatherPoint -> bool {
    (w: WeatherPoint) => w.date == date
  }

  /** `weather[k]` is the first point dated `date`. */
  predicate FirstOfDate(weather: seq<WeatherPoint>, date: string, k: int) {
    0 <= k < |weather| && weather[k].date == date
    && forall j :: 0 <= j < k ==> weather[j].date != date
  }

  /** One merged point: the AQI point unchanged, with temperature and
      humidity of the first weather point of the same date. */
  function MergePoint(p: DataPoint, weather: seq<WeatherPoint>): (m: MergedPoint)
    ensures m.point == p
    ensures (forall j :: 0 <= j < |weather| ==> weather[j].date != p.date) ==> m.temperature.None? && m.humidity.None?
    ensures forall k :: FirstOfDate(weather, p.date, k) ==>
      m.temperature == NonZero(weather[k].temperature) && m.humidity == NonZero(weather[k].humidity)
  {
    match Find(weather, SameDate(p.date))
    case None => MergedPoint(p, None, None)
    case Some(w) =>
      assert forall k :: FirstOfDate(weather, p.date, k) ==> weather[k] == w by {
        forall k | FirstOfDate(weather, p.date, k)
          ensures weather[k] == w
        {
          FindIndexIsFirst(weather, SameDate(p.date), k);
        }
      }
      MergedPoint(p, NonZero(w.temperature), NonZero(w.humidity))
  }

  /** `aqiHistoricalData.map(...)`: one merged point per AQI point, in the
      same order. */
  function Merge(aqi: seq<DataPoint>, weather: seq<WeatherPoint>): (r: seq<MergedPoint>)
    ensures |r| == |aqi|
    ensures forall i :: 0 <= i < |aqi| ==> r[i] == MergePoint(aqi[i], weather) && r[i].point == aqi[i]
  {
    seq(|aqi|, i requires 0 <= i < |aqi| => MergePoint(aqi[i], weather))
  }

  /** A parsed response: the request failed (a thrown error or a non-OK
      status), or the JSON was not an array, or it was this array. */
  datatype Fetched<T> = FetchFailed | NotAnArray | Items(items: seq<T>)

  /** The data the effect leaves: unchanged without both coordinates;
      otherwise the merge when both fetches succeeded and the AQI history
      is a non-empty array, and nothing in every other case (a weather body
      that is not an array makes `find` throw). */
  function LoadedData(previous: seq<MergedPoint>, latitude: Option<real>, longitude: Option<real>,
                      aqi: Fetched<DataPoint>, weather: Fetched<WeatherPoint>): (r: seq<MergedPoint>)
    ensures !(latitude.Some? && latitude.value != 0.0 && longitude.Some? && longitude.value != 0.0) ==> r == previous
    ensures latitude.Some? && latitude.value != 0.0 && longitude.Some? && longitude.value != 0.0 ==>
      if aqi.Items? && aqi.items != [] && weather.Items? then r == Merge(aqi.items, weather.items) else r == []
  {
    if !(latitude.Some? && latitude.value != 0.0 && longitude.Some? && longitude.value != 0.0) then previous
    else if aqi.FetchFailed? || weather.FetchFailed? then []
    else if !aqi.Items? || aqi.items == [] then []
    else if !weather.Items? then []
    else Merge(aqi.items, weather.items)
  }

  // ---------------------------------------------------------------------
  // Summary card

  /** `point.aqi_eu || 0`. */
  function EuOrZero(m: MergedPoint): real {
    m.point.aqiEu.GetOr(0.0)
  }

  /** The `reduce` sum of the European index, `null` counting as 0. */
  function SumEu(data: seq<MergedPoint>): real {
    if data == [] then 0.0 else SumEu(data[..|data| - 1]) + EuOrZero(data[|data| - 1])
  }

  /** `Math.max(...data.map(point => point.aqi_eu || 0))`; `None` stands
      for the `-Infinity` of an empty list. */
  function MaxAqi(data: seq<MergedPoint>): (r: Option<real>)
    ensures r.None? <==> data == []
    ensures r.Some? ==> forall i :: 0 <= i < |data| ==> EuOrZero(data[i]) <= r.value
    ensures r.Some? ==> exists i :: 0 <= i < |data| && EuOrZero(data[i]) == r.value
  {
    if data == [] then None
    else
      var last := EuOrZero(data[|data| - 1]);
      match MaxAqi(data[..|data| - 1])
      case None => Some(last)
      case Some(m) => Some(if m >= last then m else last)
  }

  /** `Math.round(sum / data.length)`; `None` stands for the `NaN` of an
      empty list. */
  function AverageAqi(data: seq<MergedPoint>): (r: Option<int>)
    ensures r.None? <==> data == []
  {
    if data == [] then None else Some(Round(SumEu(data) / |data| as real))
  }

  /** The sum never exceeds the length times any bound on the values. */
  lemma {:induction false} SumEuAtMost(data: seq<MergedPoint>, bound: real)
    requires forall i :: 0 <= i < |data| ==> EuOrZero(data[i]) <= bound
    ensures SumEu(data) <= |data| as real * bound
    decreases |data|
  {
    if data != [] {
      var init := data[..|data| - 1];
      assert forall i :: 0 <= i < |init| ==> init[i] == data[i];
      SumEuAtMost(init, bound);
    }
  }

  /** The average shown never exceeds the maximum rounded the same way. */
  lemma AverageAtMostMax(data: seq<MergedPoint>)
    requires data != []
    ensures AverageAqi(data).value <= Round(MaxAqi(data).value)
  {
    var m := MaxAqi(data).value;
    SumEuAtMost(data, m);
    var n := |data| as real;
    assert SumEu(data) / n <= m by {
      assert SumEu(data) <= n * m;
    }
    RoundMonotone(SumEu(data) / n, m);
  }

  /** A missing European index counts as 0 in the maximum: a history of
      points without it reads a maximum of 0. */
  lemma MissingIndexCountsZero(data: seq<MergedPoint>)
    requires data != []
    requires forall i :: 0 <= i < |data| ==> data[i].point.aqiEu.None?
    ensures MaxAqi(data) == Some(0.0)
  {
  }
}
