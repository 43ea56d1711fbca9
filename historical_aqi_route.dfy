/** The historical AQI route: hourly Open-Meteo air-quality series turned
    into per-hour points, points without any index dropped, behind a
    thirty-minute cache keyed by place and period. */
module HistoricalAqiRoute {
  import opened Wrappers
  import opened Seqs
  import opened Http
  import opened TtlCache
  import opened HistoryRequest

  /** One hourly series: `None` when the field is absent; an element is
      `None` where it is `null`. */
  type Series = Option<seq<Option<real>>>

  /** `data.hourly`; `time` is `None` when it is absent or not an array. */
  datatype HourlyAqi = HourlyAqi(
    time: Option<seq<string>>,
    pm10: Series,
    pm2_5: Series,
    carbonMonoxide: Series,
    nitrogenDioxide: Series,
    sulphurDioxide: Series,
    ozone: Series,
    europeanAqi: Series,
    usAqi: Series)

  datatype AqiPoint = AqiPoint(
    date: string,
    timestamp: string,
    pm10: real,
    pm2_5: real,
    co: real,
    no2: real,
    so2: real,
    o3: real,
    aqiEu: real,
    aqiUs: real)

  /** `series ? series[index] || 0 : 0`. */
  function ValueAt(series: Series, i: nat): (r: real)
    ensures series.Some? && i < |series.value| && series.value[i].Some? ==> r == series.value[i].value
    ensures !(series.Some? && i < |series.value| && series.value[i].Some?) ==> r == 0.0
  {
    if series.Some? && i < |series.value| && series.value[i].Some? then series.value[i].value else 0.0
  }

  /** The point built for hour `i`. */
  function PointAt(h: HourlyAqi, i: nat, formatDate: string -> string): (p: AqiPoint)
    requires h.time.Some? && i < |h.time.value|
    ensures p.timestamp == h.time.value[i] && p.date == formatDate(h.time.value[i])
  {
    var t := h.time.value[i];
    AqiPoint(formatDate(t), t,
             ValueAt(h.pm10, i), ValueAt(h.pm2_5, i), ValueAt(h.carbonMonoxide, i),
             ValueAt(h.nitrogenDioxide, i), ValueAt(h.sulphurDioxide, i), ValueAt(h.ozone, i),
             ValueAt(h.europeanAqi, i), ValueAt(h.usAqi, i))
  }

  /** The `time.map(...)` step. */
  function MapPoints(h: HourlyAqi, formatDate: string -> string): (r: seq<AqiPoint>)
    requires h.time.Some?
    ensures |r| == |h.time.value|
    ensures forall i :: 0 <= i < |r| ==> r[i] == PointAt(h, i, formatDate)
  {
    seq(|h.time.value|, i requires 0 <= i < |h.time.value| => PointAt(h, i, formatDate))
  }

  /** The `.filter(...)` step's test: some index reading above zero. */
  predicate HasIndex(p: AqiPoint) {
    p.aqiEu > 0.0 || p.aqiUs > 0.0
  }

  /** The input check of `processHistoricalData`: data, `hourly` and a
      non-empty `time` array. */
  predicate WellFormed(hourly: Option<HourlyAqi>) {
    hourly.Some? && hourly.value.time.Some? && |hourly.value.time.value| > 0
  }

  /** `processHistoricalData`: `None` where the source throws. Otherwise the
      mapped points that carry an index, in order; a point is kept exactly
      when one of its indices is positive. */
  function ProcessHistoricalData(hourly: Option<HourlyAqi>, formatDate: string -> string): (r: Option<seq<AqiPoint>>)
    ensures r.Some? <==> WellFormed(hourly)
    ensures r.Some? ==> |r.value| <= |hourly.value.time.value|
    ensures r.Some? ==> forall p :: p in r.value ==> HasIndex(p)
    ensures r.Some? ==> SubsequenceOf(r.value, MapPoints(hourly.value, formatDate))
    ensures r.Some? ==> forall i :: 0 <= i < |hourly.value.time.value| && HasIndex(PointAt(hourly.value, i, formatDate))
                                 ==> PointAt(hourly.value, i, formatDate) in r.value
    ensures r.Some? ==> forall p :: multiset(r.value)[p] ==
                          if HasIndex(p) then multiset(MapPoints(hourly.value, formatDate))[p] else 0
  {
    if !WellFormed(hourly) then None
    else
      var mapped := MapPoints(hourly.value, formatDate);
      FilterIsSubsequence(mapped, HasIndex);
      Some(Filter(mapped, HasIndex))
  }

  /** A missing series contributes 0 to every point, so with neither index
      series present nothing survives the filter. */
  lemma NoIndexSeriesNoPoints(hourly: HourlyAqi, formatDate: string -> string)
    requires WellFormed(Some(hourly))
    requires hourly.europeanAqi.None? && hourly.usAqi.None?
    ensures ProcessHistoricalData(Some(hourly), formatDate) == Some([])
  {
    var mapped := MapPoints(hourly, formatDate);
    FilterDropsAll(mapped, HasIndex);
  }

  /** When every hour has a positive index, no point is dropped. */
  lemma AllIndexedAllKept(hourly: HourlyAqi, formatDate: string -> string)
    requires WellFormed(Some(hourly))
    requires forall i :: 0 <= i < |hourly.time.value| ==> ValueAt(hourly.europeanAqi, i) > 0.0
    ensures ProcessHistoricalData(Some(hourly), formatDate) == Some(MapPoints(hourly, formatDate))
  {
    var mapped := MapPoints(hourly, formatDate);
    FilterKeepsAll(mapped, HasIndex);
  }

  const FailureMessage: string := "Failed to fetch historical AQI data"

  /** `GET /api/historical-aqi?latitude&longitude&period`. `window` is the
      look-back actually requested (`None` when no request was made). A
      missing parameter gives 400 before the cache is read; a fresh entry
      is returned unchanged; a non-OK response or malformed body gives 500
      and caches nothing; otherwise the processed points are returned and
      stored at `now`. */
  method Get(cache: Cache<seq<AqiPoint>>, latitude: Option<string>, longitude: Option<string>,
             period: Option<string>, now: int,
             openMeteo: Fetch<Option<HourlyAqi>>, formatDate: string -> string)
    returns (resp: Response<seq<AqiPoint>>, window: Option<Window>)
    requires cache.ttl == CacheDuration
    modifies cache
    ensures !ParamsPresent(latitude, longitude, period) ==>
      (resp == Error(400, MissingMessage) && window.None? && cache.entries == old(cache.entries))
    ensures ParamsPresent(latitude, longitude, period) ==>
      var key := HistoryKey(latitude.value, longitude.value, period.value);
      && (old(cache.Lookup(key, now)).Some? ==>
            resp == Ok(old(cache.Lookup(key, now)).value) && window.None? && cache.entries == old(cache.entries))
      && (old(cache.Lookup(key, now)).None? ==> window == Some(WindowFor(period.value)))
      && (old(cache.Lookup(key, now)).None?
          && (openMeteo.NotOk? || ProcessHistoricalData(openMeteo.body, formatDate).None?) ==>
            resp == Error(500, FailureMessage) && cache.entries == old(cache.entries))
      && (old(cache.Lookup(key, now)).None?
          && openMeteo.Received? && ProcessHistoricalData(openMeteo.body, formatDate).Some? ==>
            resp == Ok(ProcessHistoricalData(openMeteo.body, formatDate).value)
            && cache.entries == old(cache.entries)[key := (resp.body, now)])
  {
    if !ParamsPresent(latitude, longitude, period) {
      return Error(400, MissingMessage), None;
    }
    var key := HistoryKey(latitude.value, longitude.value, period.value);
    var cached := cache.Lookup(key, now);
    if cached.Some? {
      return Ok(cached.value), None;
    }
    window := Some(WindowFor(period.value));
    if openMeteo.NotOk? {
      return Error(500, FailureMessage), window;
    }
    var processed := ProcessHistoricalData(openMeteo.body, formatDate);
    if processed.None? {
      return Error(500, FailureMessage), window;
    }
    cache.Store(key, processed.value, now);
    resp := Ok(processed.value);
  }
}
