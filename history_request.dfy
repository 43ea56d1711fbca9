/** What the two history routes share: the required query parameters, the
    three-part cache key, the thirty-minute validity, the look-back window
    chosen from `period`, and the outcome of the Open-Meteo request. */
module HistoryRequest {
  import opened Wrappers
  import opened Http

  /** `CACHE_DURATION` in both history routes: thirty minutes. */
  const CacheDuration: int := 30 * 60 * 1000

  const MissingMessage: string := "Missing latitude, longitude, or period"

  /** All three parameters present and non-empty. */
  predicate ParamsPresent(latitude: Option<string>, longitude: Option<string>, period: Option<string>) {
    Truthy(latitude) && Truthy(longitude) && Truthy(period)
  }

  /** `${latitude}-${longitude}-${period}`. */
  function HistoryKey(latitude: string, longitude: string, period: string): (k: string)
    ensures |k| == |latitude| + |longitude| + |period| + 2
    ensures k[..|latitude|] == latitude && k[|k| - |period|..] == period
    ensures k[|latitude|] == '-' && k[|k| - |period| - 1] == '-'
    ensures k[|latitude| + 1..|latitude| + 1 + |longitude|] == longitude
  {
    latitude + "-" + longitude + "-" + period
  }

  /** The periods differ only in the last part of the key, so requests for
      the same place and different periods never share an entry. */
  lemma PeriodsKeptApart(latitude: string, longitude: string, p: string, q: string)
    requires p != q
    ensures HistoryKey(latitude, longitude, p) != HistoryKey(latitude, longitude, q)
  {
    var kp := HistoryKey(latitude, longitude, p);
    var kq := HistoryKey(latitude, longitude, q);
    if |p| == |q| {
      assert kp[|kp| - |p|..] == p;
      assert kq[|kq| - |q|..] == q;
    }
  }

  /** With the latitude and period fixed, the longitude is read back from
      its place in the key, so different longitudes never share an entry. */
  lemma LongitudesKeptApart(latitude: string, a: string, b: string, period: string)
    requires a != b
    ensures HistoryKey(latitude, a, period) != HistoryKey(latitude, b, period)
  {
    var ka := HistoryKey(latitude, a, period);
    var kb := HistoryKey(latitude, b, period);
    if |a| == |b| {
      assert ka[|latitude| + 1..|latitude| + 1 + |a|] == a;
      assert kb[|latitude| + 1..|latitude| + 1 + |b|] == b;
    }
  }

  /** How far back the request reaches: 24 hours, 7 days or one month. */
  datatype Window = Day | Week | Month

  /** The `switch (period)`: an unrecognised period falls back to 24 hours. */
  function WindowFor(period: string): (w: Window)
    ensures w == Week <==> period == "weekly"
    ensures w == Month <==> period == "monthly"
    ensures w == Day <==> period != "weekly" && period != "monthly"
  {
    if period == "daily" then Day
    else if period == "weekly" then Week
    else if period == "monthly" then Month
    else Day
  }

  /** The fetch as the handler sees it: a non-OK status, which it turns into
      a thrown error, or the parsed JSON body. */
  datatype Fetch<T> = NotOk | Received(body: T)
}
