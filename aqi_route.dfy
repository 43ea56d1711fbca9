/** The live AQI route: EPA-style breakpoint interpolation of PM2.5 and PM10
    into a 0-500 index, the six-tier level, the two provider adapters
    (OpenAQ station search, OpenWeather normalisation), and the `GET` and
    `POST` handlers with their shared five-minute cache and their different
    provider orders. Provider answers are inputs; the handlers report which
    providers they consulted, in order. */
module AqiRoute {
  import opened Wrappers
  import opened Numeric
  import opened Seqs
  import opened Http
  import opened TtlCache

  // ---------------------------------------------------------------------
  // Breakpoint interpolation

  /** One row of a breakpoint table: concentrations `lo..hi` map linearly
      onto index values `aqiLo..aqiHi`. */
  datatype Breakpoint = Breakpoint(lo: real, hi: real, aqiLo: int, aqiHi: int)

  /** PM2.5 in µg/m³. The last row joins the standard's 301-400 and 401-500
      bands into one. */
  const Pm25Breakpoints: seq<Breakpoint> := [
    Breakpoint(0.0, 12.0, 0, 50),
    Breakpoint(12.1, 35.4, 51, 100),
    Breakpoint(35.5, 55.4, 101, 150),
    Breakpoint(55.5, 150.4, 151, 200),
    Breakpoint(150.5, 250.4, 201, 300),
    Breakpoint(250.5, 500.4, 301, 500)
  ]

  /** PM10 in µg/m³, with the same joined top band. */
  const Pm10Breakpoints: seq<Breakpoint> := [
    Breakpoint(0.0, 54.0, 0, 50),
    Breakpoint(55.0, 154.0, 51, 100),
    Breakpoint(155.0, 254.0, 101, 150),
    Breakpoint(255.0, 354.0, 151, 200),
    Breakpoint(355.0, 424.0, 201, 300),
    Breakpoint(425.0, 604.0, 301, 500)
  ]

  /** What interpolation needs of a table: rows, and non-empty ranges. */
  predicate ValidTable(t: seq<Breakpoint>) {
    |t| > 0 && forall i :: 0 <= i < |t| ==> t[i].lo < t[i].hi
  }

  /** Index ranges inside 0..500, rising within each row. */
  predicate BoundedTable(t: seq<Breakpoint>) {
    forall i :: 0 <= i < |t| ==> 0 <= t[i].aqiLo <= t[i].aqiHi <= 500
  }

  /** Rows in increasing order, each ending before the next begins. */
  predicate SortedTable(t: seq<Breakpoint>) {
    forall i, j :: 0 <= i < j < |t| ==> t[i].hi < t[j].lo
  }

  predicate InBracket(bp: Breakpoint, c: real) {
    bp.lo <= c <= bp.hi
  }

  /** `Math.round((aqiMax - aqiMin) / (max - min) * (c - min) + aqiMin)`. */
  function Interpolate(bp: Breakpoint, c: real): int
    requires bp.lo < bp.hi
  {
    Round((bp.aqiHi - bp.aqiLo) as real / (bp.hi - bp.lo) * (c - bp.lo) + bp.aqiLo as real)
  }

  /** The sub-index of one pollutant: the first row containing `c`
      interpolated; 0 when no row contains it; 500 above the last row. */
  function SubIndex(t: seq<Breakpoint>, c: real): int
    requires ValidTable(t)
  {
    if c > t[|t| - 1].hi then 500
    else match FindIndex(t, bp => InBracket(bp, c))
      case Some(i) => Interpolate(t[i], c)
      case None => 0
  }

  /** The loop of `calculateAQI` for one pollutant: scan the rows, stop at
      the first that contains `c`, then apply the above-range rule. */
  method ComputeSubIndex(t: seq<Breakpoint>, c: real) returns (r: int)
    requires ValidTable(t)
    ensures r == SubIndex(t, c)
  {
    r := 0;
    var i := 0;
    while i < |t|
      invariant 0 <= i <= |t|
      invariant r == 0
      invariant forall j :: 0 <= j < i ==> !InBracket(t[j], c)
    {
      if InBracket(t[i], c) {
        r := Interpolate(t[i], c);
        break;
      }
      i := i + 1;
    }
    if c > t[|t| - 1].hi {
      r := 500;
    }
  }

  /** An interpolated value stays within its row's index range. */
  lemma InterpolateWithin(bp: Breakpoint, c: real)
    requires bp.lo < bp.hi && bp.aqiLo <= bp.aqiHi && InBracket(bp, c)
    ensures bp.aqiLo <= Interpolate(bp, c) <= bp.aqiHi
  {
    var w := bp.hi - bp.lo;
    var d := (bp.aqiHi - bp.aqiLo) as real;
    var slope := d / w;
    var x := c - bp.lo;
    assert slope >= 0.0;
    assert 0.0 <= x <= w;
    assert slope * x <= slope * w;
    assert slope * w == d;
    RoundAtLeast(slope * x + bp.aqiLo as real, bp.aqiLo);
    RoundAtMost(slope * x + bp.aqiLo as real, bp.aqiHi);
  }

  /** The lower end of a row maps exactly to the row's lowest index. */
  lemma InterpolateAtLo(bp: Breakpoint)
    requires bp.lo < bp.hi
    ensures Interpolate(bp, bp.lo) == bp.aqiLo
  {
    var slope := (bp.aqiHi - bp.aqiLo) as real / (bp.hi - bp.lo);
    assert slope * (bp.lo - bp.lo) == 0.0;
    RoundOfInt(bp.aqiLo);
  }

  /** The upper end of a row maps exactly to the row's highest index. */
  lemma InterpolateAtHi(bp: Breakpoint)
    requires bp.lo < bp.hi
    ensures Interpolate(bp, bp.hi) == bp.aqiHi
  {
    var d := (bp.aqiHi - bp.aqiLo) as real;
    assert d / (bp.hi - bp.lo) * (bp.hi - bp.lo) == d;
    RoundOfInt(bp.aqiHi);
  }

  /** Both tables are well formed, bounded and sorted. */
  lemma TablesWellFormed()
    ensures ValidTable(Pm25Breakpoints) && BoundedTable(Pm25Breakpoints) && SortedTable(Pm25Breakpoints)
    ensures ValidTable(Pm10Breakpoints) && BoundedTable(Pm10Breakpoints) && SortedTable(Pm10Breakpoints)
  {
  }

  /** Every sub-index of a bounded table lies in 0..500. */
  lemma SubIndexBounded(t: seq<Breakpoint>, c: real)
    requires ValidTable(t) && BoundedTable(t)
    ensures 0 <= SubIndex(t, c) <= 500
  {
    if c <= t[|t| - 1].hi {
      var k := FindIndex(t, bp => InBracket(bp, c));
      if k.Some? {
        InterpolateWithin(t[k.value], c);
      }
    }
  }

  /** A concentration inside row `i` of a sorted table gets that row's
      interpolation: no earlier row contains it, and it is not above the
      last row. */
  lemma SubIndexInRow(t: seq<Breakpoint>, i: nat, c: real)
    requires ValidTable(t) && SortedTable(t)
    requires i < |t| && InBracket(t[i], c)
    ensures SubIndex(t, c) == Interpolate(t[i], c)
  {
    var last := |t| - 1;
    assert c <= t[last].hi by {
      if i < last {
        assert t[i].hi < t[last].lo;
      }
    }
    forall j | 0 <= j < i
      ensures !InBracket(t[j], c)
    {
      assert t[j].hi < t[i].lo;
    }
    FindIndexIsFirst(t, bp => InBracket(bp, c), i);
  }

  /** A concentration strictly between two consecutive rows matches no row
      and gets sub-index 0. */
  lemma SubIndexInGap(t: seq<Breakpoint>, i: nat, c: real)
    requires ValidTable(t) && SortedTable(t)
    requires i + 1 < |t| && t[i].hi < c < t[i + 1].lo
    ensures SubIndex(t, c) == 0
  {
    var last := |t| - 1;
    assert c <= t[last].hi by {
      if i + 1 < last {
        assert t[i + 1].hi < t[last].lo;
      }
    }
    forall j | 0 <= j < |t|
      ensures !InBracket(t[j], c)
    {
      if j < i {
        assert t[j].hi < t[i].lo;
      } else if j > i + 1 {
        assert t[i + 1].hi < t[j].lo;
      }
    }
    assert FindIndex(t, bp => InBracket(bp, c)).None?;
  }

  /** Above the last row the sub-index is 500, however high `c` goes. */
  lemma SubIndexAboveTop(t: seq<Breakpoint>, c: real)
    requires ValidTable(t) && c > t[|t| - 1].hi
    ensures SubIndex(t, c) == 500
  {
  }

  /** Row ends map exactly to the row's index ends, in either table. */
  lemma RowEndsExact(t: seq<Breakpoint>, i: nat)
    requires ValidTable(t) && SortedTable(t) && i < |t|
    ensures SubIndex(t, t[i].lo) == t[i].aqiLo
    ensures SubIndex(t, t[i].hi) == t[i].aqiHi
  {
    SubIndexInRow(t, i, t[i].lo);
    InterpolateAtLo(t[i]);
    SubIndexInRow(t, i, t[i].hi);
    InterpolateAtHi(t[i]);
  }

  /** The Good/Moderate boundary for PM2.5: 12.0 gives 50 and 12.1 gives
      51, while anything strictly between them gives 0; likewise PM10
      between 54 and 55. */
  lemma BoundaryExamples()
    ensures SubIndex(Pm25Breakpoints, 12.0) == 50
    ensures SubIndex(Pm25Breakpoints, 12.1) == 51
    ensures SubIndex(Pm25Breakpoints, 12.05) == 0
    ensures SubIndex(Pm10Breakpoints, 54.5) == 0
  {
    TablesWellFormed();
    RowEndsExact(Pm25Breakpoints, 0);
    RowEndsExact(Pm25Breakpoints, 1);
    SubIndexInGap(Pm25Breakpoints, 0, 12.05);
    SubIndexInGap(Pm10Breakpoints, 0, 54.5);
  }

  /** The gaps in general: strictly between 12.0 and 12.1 µg/m³ of PM2.5,
      or between 54 and 55 µg/m³ of PM10, the sub-index is 0. */
  lemma GapsGiveZero(pm25: real, pm10: real)
    ensures 12.0 < pm25 < 12.1 ==> SubIndex(Pm25Breakpoints, pm25) == 0
    ensures 54.0 < pm10 < 55.0 ==> SubIndex(Pm10Breakpoints, pm10) == 0
  {
    TablesWellFormed();
    if 12.0 < pm25 < 12.1 {
      SubIndexInGap(Pm25Breakpoints, 0, pm25);
    }
    if 54.0 < pm10 < 55.0 {
      SubIndexInGap(Pm10Breakpoints, 0, pm10);
    }
  }

  // ---------------------------------------------------------------------
  // The index and its level

  /** The final index: the worse of the two pollutants. */
  function AqiOf(pm25: real, pm10: real): int {
    Max(SubIndex(Pm25Breakpoints, pm25), SubIndex(Pm10Breakpoints, pm10))
  }

  /** The index lies in 0..500 for every pair of concentrations (negative
      ones match no row and count as 0), and it is the larger sub-index. */
  lemma AqiBounds(pm25: real, pm10: real)
    ensures 0 <= AqiOf(pm25, pm10) <= 500
    ensures AqiOf(pm25, pm10) >= SubIndex(Pm25Breakpoints, pm25)
    ensures AqiOf(pm25, pm10) >= SubIndex(Pm10Breakpoints, pm10)
    ensures AqiOf(pm25, pm10) == SubIndex(Pm25Breakpoints, pm25)
         || AqiOf(pm25, pm10) == SubIndex(Pm10Breakpoints, pm10)
  {
    TablesWellFormed();
    SubIndexBounded(Pm25Breakpoints, pm25);
    SubIndexBounded(Pm10Breakpoints, pm10);
  }

  /** Worked values: PM2.5 of 40 gives 112; PM2.5 of 10 with PM10 of 200
      gives max(42, 123) = 123; 600 µg/m³ of PM2.5 gives 500; clean air 0. */
  lemma WorkedExamples()
    ensures AqiOf(40.0, 0.0) == 112
    ensures SubIndex(Pm25Breakpoints, 10.0) == 42
    ensures SubIndex(Pm10Breakpoints, 200.0) == 123
    ensures AqiOf(10.0, 200.0) == 123
    ensures AqiOf(600.0, 0.0) == 500
    ensures AqiOf(0.0, 0.0) == 0
  {
    TablesWellFormed();
    SubIndexInRow(Pm25Breakpoints, 2, 40.0);
    SubIndexInRow(Pm25Breakpoints, 0, 10.0);
    SubIndexInRow(Pm10Breakpoints, 2, 200.0);
    RowEndsExact(Pm25Breakpoints, 0);
    RowEndsExact(Pm10Breakpoints, 0);
  }

  /** The six categories, in increasing severity. */
  datatype Level = Good | Moderate | SensitiveGroups | Unhealthy | VeryUnhealthy | Hazardous {
    function Name(): string {
      match this
      case Good => "Good"
      case Moderate => "Moderate"
      case SensitiveGroups => "Unhealthy for Sensitive Groups"
      case Unhealthy => "Unhealthy"
      case VeryUnhealthy => "Very Unhealthy"
      case Hazardous => "Hazardous"
    }

    function Recommendation(): string {
      match this
      case Good => "Air quality is good. Enjoy your outdoor activities!"
      case Moderate => "Air quality is acceptable. Sensitive groups should take precautions."
      case SensitiveGroups => "Members of sensitive groups may experience health effects. The general public is less likely to be affected."
      case Unhealthy => "Limit outdoor activities. Consider wearing a mask."
      case VeryUnhealthy => "Avoid outdoor activities. Use air purifier if available."
      case Hazardous => "Avoid all outdoor activities. Stay indoors with windows closed."
    }

    /** Position in the scale, 0 for Good up to 5 for Hazardous. */
    function Rank(): nat {
      match this
      case Good => 0
      case Moderate => 1
      case SensitiveGroups => 2
      case Unhealthy => 3
      case VeryUnhealthy => 4
      case Hazardous => 5
    }
  }

  /** The category at a given position of the scale. */
  function LevelOfRank(n: nat): (l: Level)
    requires n <= 5
    ensures l.Rank() == n
  {
    if n == 0 then Good
    else if n == 1 then Moderate
    else if n == 2 then SensitiveGroups
    else if n == 3 then Unhealthy
    else if n == 4 then VeryUnhealthy
    else Hazardous
  }

  /** The index range of each category, bounds inclusive. */
  predicate InTier(aqi: int, l: Level) {
    match l
    case Good => aqi <= 50
    case Moderate => 51 <= aqi <= 100
    case SensitiveGroups => 101 <= aqi <= 150
    case Unhealthy => 151 <= aqi <= 200
    case VeryUnhealthy => 201 <= aqi <= 300
    case Hazardous => aqi >= 301
  }

  /** The if/else chain of `calculateAQI`, checked from the top down. */
  function LevelFor(aqi: int): (l: Level)
    ensures InTier(aqi, l)
  {
    if aqi > 300 then Hazardous
    else if aqi > 200 then VeryUnhealthy
    else if aqi > 150 then Unhealthy
    else if aqi > 100 then SensitiveGroups
    else if aqi > 50 then Moderate
    else Good
  }

  /** Each index belongs to exactly one category, so the level is the only
      one whose range holds the index. */
  lemma LevelUnique(aqi: int, l: Level)
    requires InTier(aqi, l)
    ensures LevelFor(aqi) == l
  {
  }

  /** Distinct categories have distinct names. */
  lemma LevelNamesDistinct(a: Level, b: Level)
    requires a.Name() == b.Name()
    ensures a == b
  {
  }

  /** A higher index never gives a less severe category. */
  lemma LevelMonotone(a: int, b: int)
    requires a <= b
    ensures LevelFor(a).Rank() <= LevelFor(b).Rank()
  {
  }

  // ---------------------------------------------------------------------
  // calculateAQI

  /** The route's result record. `source` and `location` are present only in
      results built by `GET`. */
  datatype AqiResult = AqiResult(
    aqi: int,
    level: string,
    recommendation: string,
    pm25: real,
    pm10: real,
    timestamp: int,
    source: Option<string>,
    location: Option<(real, real)>)

  /** `calculateAQI(pm25, pm10)` stamped at `now`. */
  method CalculateAqi(pm25: real, pm10: real, now: int) returns (r: AqiResult)
    ensures r.aqi == AqiOf(pm25, pm10) && 0 <= r.aqi <= 500
    ensures r.level == LevelFor(r.aqi).Name()
    ensures r.recommendation == LevelFor(r.aqi).Recommendation()
    ensures r.pm25 == pm25 && r.pm10 == pm10 && r.timestamp == now
    ensures r.source.None? && r.location.None?
  {
    TablesWellFormed();
    var pm25Aqi := ComputeSubIndex(Pm25Breakpoints, pm25);
    var pm10Aqi := ComputeSubIndex(Pm10Breakpoints, pm10);
    var aqi := Max(pm25Aqi, pm10Aqi);
    AqiBounds(pm25, pm10);
    var level := LevelFor(aqi);
    RoundOfInt(aqi);
    r := AqiResult(Round(aqi as real), level.Name(), level.Recommendation(), pm25, pm10, now, None, None);
  }

  // ---------------------------------------------------------------------
  // Provider adapters

  datatype Provider = OpenWeather | OpenAQ

  /** A provider's normalised answer. */
  datatype Reading = Reading(
    pm25: real,
    pm10: real,
    source: string,
    aqiIndex: Option<int>,
    stationName: Option<string>,
    distance: Option<real>)

  /** `x || 0` for a value that may be `null`. */
  function OrZero(x: Option<real>): (r: real)
    ensures x.Some? ==> r == x.value
    ensures x.None? ==> r == 0.0
  {
    x.GetOr(0.0)
  }

  /** A JSON field as JavaScript sees it: `null`, missing (`undefined`), or
      a number. */
  datatype JsValue = JsNull | JsUndefined | JsNumber(n: real)

  /** A number as a possibly absent reading: `null` and `undefined` are
      both absent. */
  function NumberOf(v: JsValue): (r: Option<real>)
    ensures r.Some? <==> v.JsNumber?
    ensures r.Some? ==> r.value == v.n
  {
    if v.JsNumber? then Some(v.n) else None
  }

  /** An OpenAQ measurement: `{ parameter, lastValue }`. */
  datatype Param = Param(parameter: string, lastValue: JsValue)

  /** An OpenAQ location, as returned in distance order. */
  datatype Station = Station(name: string, distance: real, parameters: Option<seq<Param>>)

  /** The inner loop's test for `name`: the parameter has that name and a
      `lastValue` that is not `null`; `undefined` passes the test. */
  predicate Qualifies(p: Param, name: string) {
    p.parameter == name && p.lastValue != JsNull
  }

  /** The value the inner loop leaves for `name`, starting from `null`:
      each qualifying entry overwrites the previous one, so it is the
      `lastValue` of the last qualifying entry. */
  function LastValueOf(ps: seq<Param>, name: string): (r: JsValue)
    ensures r != JsNull <==> exists j :: 0 <= j < |ps| && Qualifies(ps[j], name)
    ensures r != JsNull ==> exists j :: (0 <= j < |ps| && Qualifies(ps[j], name) && ps[j].lastValue == r
                                         && forall k :: j < k < |ps| ==> !Qualifies(ps[k], name))
  {
    if ps == [] then JsNull
    else if Qualifies(ps[|ps| - 1], name) then ps[|ps| - 1].lastValue
    else
      var init := ps[..|ps| - 1];
      var r := LastValueOf(init, name);
      assert forall j :: 0 <= j < |init| ==> init[j] == ps[j];
      r
  }

  function StationPm25(s: Station): JsValue {
    if s.parameters.Some? then LastValueOf(s.parameters.value, "pm25") else JsNull
  }

  function StationPm10(s: Station): JsValue {
    if s.parameters.Some? then LastValueOf(s.parameters.value, "pm10") else JsNull
  }

  /** The station test `stationPm25 !== null || stationPm10 !== null`. */
  predicate HasData(s: Station) {
    StationPm25(s) != JsNull || StationPm10(s) != JsNull
  }

  /** What `getAQIFromOpenAQ` returns for the parsed `results` list (`None`
      when the request failed or the list was absent). */
  function OpenAqReading(results: Option<seq<Station>>): Option<Reading> {
    if results.None? || |results.value| == 0 then None
    else match FindIndex(results.value, HasData)
      case None => None
      case Some(k) =>
        var st := results.value[k];
        Some(Reading(OrZero(NumberOf(StationPm25(st))), OrZero(NumberOf(StationPm10(st))), "OpenAQ", None,
                     Some(st.name), Some(st.distance)))
  }

  /** The inner loop of the station search: scan one station's parameters,
      each qualifying entry overwriting the value kept for its pollutant. */
  method ScanParameters(ps: seq<Param>) returns (pm25: JsValue, pm10: JsValue)
    ensures pm25 == LastValueOf(ps, "pm25") && pm10 == LastValueOf(ps, "pm10")
  {
    pm25 := JsNull;
    pm10 := JsNull;
    var k := 0;
    while k < |ps|
      invariant 0 <= k <= |ps|
      invariant pm25 == LastValueOf(ps[..k], "pm25")
      invariant pm10 == LastValueOf(ps[..k], "pm10")
    {
      assert ps[..k + 1][..k] == ps[..k];
      if ps[k].parameter == "pm25" && ps[k].lastValue != JsNull {
        pm25 := ps[k].lastValue;
      } else if ps[k].parameter == "pm10" && ps[k].lastValue != JsNull {
        pm10 := ps[k].lastValue;
      }
      k := k + 1;
    }
    assert ps[..|ps|] == ps;
  }

  /** The station search of `getAQIFromOpenAQ`: for each station in order,
      scan its parameters, and stop at the first station with a PM2.5 or
      PM10 value. */
  method SelectOpenAqStation(results: Option<seq<Station>>) returns (r: Option<Reading>)
    ensures r == OpenAqReading(results)
  {
    if results.None? || |results.value| == 0 {
      return None;
    }
    var stations := results.value;
    var selected: Option<nat> := None;
    var pm25: JsValue := JsNull;
    var pm10: JsValue := JsNull;
    var i := 0;
    while i < |stations|
      invariant 0 <= i <= |stations|
      invariant selected.None?
      invariant forall j :: 0 <= j < i ==> !HasData(stations[j])
    {
      var stationPm25: JsValue := JsNull;
      var stationPm10: JsValue := JsNull;
      if stations[i].parameters.Some? {
        stationPm25, stationPm10 := ScanParameters(stations[i].parameters.value);
      }
      if stationPm25 != JsNull || stationPm10 != JsNull {
        selected := Some(i);
        pm25 := stationPm25;
        pm10 := stationPm10;
        break;
      }
      i := i + 1;
    }
    if selected.None? {
      return None;
    }
    var k := selected.value;
    FindIndexIsFirst(stations, HasData, k);
    var st := stations[k];
    r := Some(Reading(OrZero(NumberOf(pm25)), OrZero(NumberOf(pm10)), "OpenAQ", None, Some(st.name), Some(st.distance)));
  }

  /** The OpenAQ adapter picks the first station, in returned order, that
      has a PM2.5 or PM10 value, filling a missing pollutant with 0; with no
      such station it yields nothing. */
  lemma OpenAqFirstQualifying(stations: seq<Station>, k: nat)
    requires k < |stations| && HasData(stations[k])
    requires forall j :: 0 <= j < k ==> !HasData(stations[j])
    ensures OpenAqReading(Some(stations)).Some?
    ensures OpenAqReading(Some(stations)).value.stationName == Some(stations[k].name)
    ensures OpenAqReading(Some(stations)).value.pm25 == OrZero(NumberOf(StationPm25(stations[k])))
    ensures OpenAqReading(Some(stations)).value.pm10 == OrZero(NumberOf(StationPm10(stations[k])))
  {
    FindIndexIsFirst(stations, HasData, k);
  }

  lemma OpenAqNoQualifying(stations: seq<Station>)
    requires forall j :: 0 <= j < |stations| ==> !HasData(stations[j])
    ensures OpenAqReading(Some(stations)).None?
  {
  }

  /** A `pm25` entry whose `lastValue` is missing passes the `!== null`
      test, so a station with nothing else is still chosen, and its PM2.5
      reads `undefined || 0`, that is 0. */
  lemma UndefinedLastValueSelects(name: string, distance: real)
    ensures OpenAqReading(Some([Station(name, distance, Some([Param("pm25", JsUndefined)]))])) ==
      Some(Reading(0.0, 0.0, "OpenAQ", None, Some(name), Some(distance)))
  {
    var st := Station(name, distance, Some([Param("pm25", JsUndefined)]));
    assert Qualifies(st.parameters.value[0], "pm25");
    assert HasData(st);
    FindIndexIsFirst([st], HasData, 0);
  }

  /** OpenWeather's `components` object. */
  datatype OwComponents = OwComponents(pm2_5: Option<real>, pm10: Option<real>)

  /** One element of OpenWeather's `list`; a missing `components` makes the
      adapter throw, which it catches and turns into `null`. */
  datatype OwEntry = OwEntry(components: Option<OwComponents>, mainAqi: Option<int>)

  /** What `getAQIFromOpenWeather` returns: nothing without an API key, on a
      failed request (`None`), on an empty `list`, or without `components`;
      otherwise the first entry with missing pollutants as 0 and a zero or
      missing provider index as `null`. */
  function OpenWeatherReading(apiKeySet: bool, list: Option<seq<OwEntry>>): (r: Option<Reading>)
    ensures r.Some? <==> apiKeySet && list.Some? && |list.value| > 0 && list.value[0].components.Some?
    ensures r.Some? ==>
      (r.value.pm25 == OrZero(list.value[0].components.value.pm2_5)
       && r.value.pm10 == OrZero(list.value[0].components.value.pm10)
       && r.value.source == "OpenWeather")
    ensures r.Some? && r.value.aqiIndex.Some? ==> r.value.aqiIndex.value != 0
  {
    if !apiKeySet || list.None? || |list.value| == 0 then None
    else
      var entry := list.value[0];
      if entry.components.None? then None
      else
        var index := if entry.mainAqi.Some? && entry.mainAqi.value != 0 then entry.mainAqi else None;
        Some(Reading(OrZero(entry.components.value.pm2_5), OrZero(entry.components.value.pm10),
                     "OpenWeather", index, None, None))
  }

  // ---------------------------------------------------------------------
  // Provider fallback

  /** A reading with at least one non-zero pollutant. */
  predicate Usable(r: Option<Reading>) {
    r.Some? && !(r.value.pm25 == 0.0 && r.value.pm10 == 0.0)
  }

  /** The reading a handler settles on, the `source` it reports, and the
      providers it queried, in order. */
  datatype Decision = Decision(reading: Option<Reading>, source: string, calls: seq<Provider>)

  /** `GET`: OpenWeather first; OpenAQ only when OpenWeather gave nothing
      or zero for both pollutants. */
  function GetFallback(openWeather: Option<Reading>, openAq: Option<Reading>): (d: Decision)
    ensures |d.calls| >= 1 && d.calls[0] == OpenWeather
    ensures (OpenAQ in d.calls) <==> !Usable(openWeather)
    ensures Usable(openWeather) ==> d.reading == openWeather && d.source == "OpenWeather"
    ensures !Usable(openWeather) ==> d.reading == openAq && d.source == "OpenAQ"
    ensures Usable(d.reading) <==> Usable(openWeather) || Usable(openAq)
  {
    if !Usable(openWeather) then Decision(openAq, "OpenAQ", [OpenWeather, OpenAQ])
    else Decision(openWeather, "OpenWeather", [OpenWeather])
  }

  /** `POST`: OpenAQ first; OpenWeather only when OpenAQ gave nothing. A
      zero-zero reading is accepted. */
  function PostFallback(openAq: Option<Reading>, openWeather: Option<Reading>): (d: Decision)
    ensures |d.calls| >= 1 && d.calls[0] == OpenAQ
    ensures (OpenWeather in d.calls) <==> openAq.None?
    ensures openAq.Some? ==> d.reading == openAq
    ensures openAq.None? ==> d.reading == openWeather
    ensures d.reading.Some? <==> openAq.Some? || openWeather.Some?
  {
    if openAq.None? then Decision(openWeather, "OpenWeather", [OpenAQ, OpenWeather])
    else Decision(openAq, "OpenAQ", [OpenAQ])
  }

  /** The two handlers disagree: with OpenWeather silent and OpenAQ reporting
      zero for both pollutants, `GET` finds no data while `POST` returns a
      Good reading of 0. */
  lemma GetAndPostDisagree(zero: Reading)
    requires zero.pm25 == 0.0 && zero.pm10 == 0.0
    ensures !Usable(GetFallback(None, Some(zero)).reading)
    ensures PostFallback(Some(zero), None).reading == Some(zero)
    ensures AqiOf(zero.pm25, zero.pm10) == 0 && LevelFor(0) == Good
  {
    WorkedExamples();
  }

  // ---------------------------------------------------------------------
  // Handlers

  /** `CACHE_DURATION`: five minutes. */
  const CacheDuration: int := 5 * 60 * 1000

  const NoDataMessage: string := "No AQI data available for this location"
  const NoSourceMessage: string := "Could not retrieve AQI data from any source"
  const InvalidBodyMessage: string := "Invalid request body"

  /** `GET /api/aqi?lat&lon`. `openWeather` and `openAq` are what the two
      adapters would answer if called; `calls` lists those actually called.
      Invalid coordinates are refused before the cache is read; a fresh
      cache entry is returned unchanged with no provider call; otherwise the
      fallback decides, a reading without data gives 404 and caches nothing,
      and a usable one is scored, returned and stored at `now`. */
  method Get(cache: Cache<AqiResult>, lat: Option<string>, lon: Option<string>,
             parse: string -> Option<real>, now: int,
             openWeather: Option<Reading>, openAq: Option<Reading>)
    returns (resp: Response<AqiResult>, calls: seq<Provider>)
    requires cache.ttl == CacheDuration
    modifies cache
    ensures ValidateCoordinates(lat, lon, parse).Invalid? ==>
      (resp == Error(400, ValidateCoordinates(lat, lon, parse).error.Message())
       && calls == [] && cache.entries == old(cache.entries))
    ensures ValidateCoordinates(lat, lon, parse).Valid? ==>
      var key := CoordinateKey(lat.value, lon.value);
      var v := ValidateCoordinates(lat, lon, parse);
      var d := GetFallback(openWeather, openAq);
      && (old(cache.Lookup(key, now)).Some? ==>
            resp == Ok(old(cache.Lookup(key, now)).value)
            && calls == [] && cache.entries == old(cache.entries))
      && (old(cache.Lookup(key, now)).None? ==> calls == d.calls)
      && (old(cache.Lookup(key, now)).None? && !Usable(d.reading) ==>
            resp == Error(404, NoDataMessage) && cache.entries == old(cache.entries))
      && (old(cache.Lookup(key, now)).None? && Usable(d.reading) ==>
            && resp.Ok?
            && resp.body.aqi == AqiOf(d.reading.value.pm25, d.reading.value.pm10)
            && resp.body.level == LevelFor(resp.body.aqi).Name()
            && resp.body.recommendation == LevelFor(resp.body.aqi).Recommendation()
            && resp.body.pm25 == d.reading.value.pm25 && resp.body.pm10 == d.reading.value.pm10
            && resp.body.source == Some(d.source)
            && resp.body.location == Some((v.latitude, v.longitude))
            && resp.body.timestamp == now
            && cache.entries == old(cache.entries)[key := (resp.body, now)])
  {
    var check := ValidateCoordinates(lat, lon, parse);
    if check.Invalid? {
      return Error(400, check.error.Message()), [];
    }
    var key := CoordinateKey(lat.value, lon.value);
    var cached := cache.Lookup(key, now);
    if cached.Some? {
      return Ok(cached.value), [];
    }
    var decision := GetFallback(openWeather, openAq);
    calls := decision.calls;
    if !Usable(decision.reading) {
      return Error(404, NoDataMessage), calls;
    }
    var data := decision.reading.value;
    var result := CalculateAqi(data.pm25, data.pm10, now);
    var finalResult := result.(source := Some(decision.source), pm25 := data.pm25, pm10 := data.pm10,
                               timestamp := now, location := Some((check.latitude, check.longitude)));
    cache.Store(key, finalResult, now);
    resp := Ok(finalResult);
  }

  /** A `POST` body field: absent (or `null`), a string, or a number with
      the text `String(n)` gives for it. */
  datatype BodyField = Absent | Text(text: string) | Number(value: real, rendering: string) {
    predicate Truthy() {
      match this
      case Absent => false
      case Text(s) => s != ""
      case Number(v, _) => v != 0.0
    }

    function Render(): string {
      match this
      case Absent => "undefined"
      case Text(s) => s
      case Number(_, s) => s
    }
  }

  datatype PostBody = PostBody(lat: BodyField, lon: BodyField)

  /** `POST /api/aqi` with `{ lat, lon }` (`body` is `None` when the JSON
      does not parse). No range check; falsy coordinates, including the
      number 0, are refused. The cache is the one `GET` uses. OpenAQ is
      asked first, OpenWeather only when OpenAQ gave nothing; with neither,
      500. The stored result is the bare `calculateAQI` record. */
  method Post(cache: Cache<AqiResult>, body: Option<PostBody>, now: int,
              openAq: Option<Reading>, openWeather: Option<Reading>)
    returns (resp: Response<AqiResult>, calls: seq<Provider>)
    requires cache.ttl == CacheDuration
    modifies cache
    ensures body.None? ==>
      (resp == Error(400, InvalidBodyMessage) && calls == [] && cache.entries == old(cache.entries))
    ensures body.Some? && !(body.value.lat.Truthy() && body.value.lon.Truthy()) ==>
      (resp == Error(400, MissingParameter.Message()) && calls == [] && cache.entries == old(cache.entries))
    ensures body.Some? && body.value.lat.Truthy() && body.value.lon.Truthy() ==>
      var key := CoordinateKey(body.value.lat.Render(), body.value.lon.Render());
      var d := PostFallback(openAq, openWeather);
      && (old(cache.Lookup(key, now)).Some? ==>
            resp == Ok(old(cache.Lookup(key, now)).value)
            && calls == [] && cache.entries == old(cache.entries))
      && (old(cache.Lookup(key, now)).None? ==> calls == d.calls)
      && (old(cache.Lookup(key, now)).None? && d.reading.None? ==>
            resp == Error(500, NoSourceMessage) && cache.entries == old(cache.entries))
      && (old(cache.Lookup(key, now)).None? && d.reading.Some? ==>
            && resp.Ok?
            && resp.body.aqi == AqiOf(d.reading.value.pm25, d.reading.value.pm10)
            && resp.body.level == LevelFor(resp.body.aqi).Name()
            && resp.body.recommendation == LevelFor(resp.body.aqi).Recommendation()
            && resp.body.pm25 == d.reading.value.pm25 && resp.body.pm10 == d.reading.value.pm10
            && resp.body.source.None? && resp.body.location.None? && resp.body.timestamp == now
            && cache.entries == old(cache.entries)[key := (resp.body, now)])
  {
    if body.None? {
      return Error(400, InvalidBodyMessage), [];
    }
    var b := body.value;
    if !b.lat.Truthy() || !b.lon.Truthy() {
      return Error(400, MissingParameter.Message()), [];
    }
    var key := CoordinateKey(b.lat.Render(), b.lon.Render());
    var cached := cache.Lookup(key, now);
    if cached.Some? {
      return Ok(cached.value), [];
    }
    var decision := PostFallback(openAq, openWeather);
    calls := decision.calls;
    if decision.reading.None? {
      return Error(500, NoSourceMessage), calls;
    }
    var result := CalculateAqi(decision.reading.value.pm25, decision.reading.value.pm10, now);
    cache.Store(key, result, now);
    resp := Ok(result);
  }
}
