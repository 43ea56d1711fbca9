/** The `useAQI` hook: how its arguments are read in the object and the
    positional calling styles, and the state one `fetchAQI` call leaves
    behind for each outcome of the request. Times are milliseconds. */
module UseAqi {
  import opened Wrappers
  import opened Text
  import opened Http

  /** The refresh interval used when none is given: five minutes. */
  const DefaultInterval: real := 300000.0

  /** The first argument: an options object (fields `None` when absent or
      `null`), a number, `null`, or anything else (`undefined`). */
  datatype Arg =
    | ObjectArg(latitude: Option<real>, longitude: Option<real>, refreshInterval: Option<real>)
    | NumberArg(value: real)
    | NullArg
    | OtherArg

  /** The argument normalisation at the top of `useAQI`. `second` and
      `third` are `None` when they are not numbers. */
  method NormaliseArgs(param: Arg, second: Option<real>, third: Option<real>)
    returns (latitude: Option<real>, longitude: Option<real>, refreshInterval: real)
    ensures param.ObjectArg? ==>
      && latitude == NonZero(param.latitude) && longitude == NonZero(param.longitude)
      && refreshInterval == (if NonZero(param.refreshInterval).Some? then param.refreshInterval.value else DefaultInterval)
    ensures param.NumberArg? && second.Some? ==>
      && latitude == Some(param.value) && longitude == second
      && refreshInterval == (if third.Some? then third.value else DefaultInterval)
    ensures !param.ObjectArg? && !(param.NumberArg? && second.Some?) ==>
      latitude.None? && longitude.None? && refreshInterval == DefaultInterval
    ensures param.ObjectArg? ==> latitude != Some(0.0) && longitude != Some(0.0)
  {
    latitude := None;
    longitude := None;
    refreshInterval := DefaultInterval;
    if param.ObjectArg? {
      latitude := NonZero(param.latitude);
      longitude := NonZero(param.longitude);
      refreshInterval := if NonZero(param.refreshInterval).Some? then param.refreshInterval.value else DefaultInterval;
    } else if param.NumberArg? && second.Some? {
      latitude := Some(param.value);
      longitude := second;
      if third.Some? {
        refreshInterval := third.value;
      }
    }
  }

  /** The JSON the route returned; `aqi` is `None` when it is not a
      number. */
  datatype Received = Received(aqi: Option<real>, level: string, recommendation: string,
                               pm25: real, pm10: real, timestamp: string, source: Option<string>)

  /** How the request ended: it threw (with that message), came back with
      a non-OK status, or gave a body (`None` for a falsy one). */
  datatype Reply = Threw(message: string) | NotOk(status: int, statusText: string) | Body(result: Option<Received>)

  /** The hook's state. */
  datatype HookState = HookState(data: Option<Received>, loading: bool, error: Option<string>, lastFetch: Option<int>)

  const MissingLocationMessage: string := "Location data is required to fetch AQI"
  const InvalidDataMessage: string := "Invalid AQI data received from API"

  /** `fetchAQI`'s result check: a body whose `aqi` is a number. */
  predicate Acceptable(reply: Reply) {
    reply.Body? && reply.result.Some? && reply.result.value.aqi.Some?
  }

  /** The message `fetchAQI` records for a failed request. */
  function FailureMessage(reply: Reply): (m: string)
    requires !Acceptable(reply)
    ensures reply.Body? ==> m == InvalidDataMessage
  {
    match reply
    case Threw(message) => message
    case NotOk(status, statusText) => "Failed to fetch AQI data: " + IntToString(status) + " " + statusText
    case Body(_) => InvalidDataMessage
  }

  /** One `fetchAQI` call, to completion: whether a request was made, and
      the state afterwards. */
  function FetchAqi(s: HookState, latitude: Option<real>, longitude: Option<real>, reply: Reply, now: int): (r: (bool, HookState))
    ensures !r.0 <==> NonZero(latitude).None? || NonZero(longitude).None?
    ensures !r.0 ==> r.1 == s.(error := Some(MissingLocationMessage))
    ensures r.0 ==> !r.1.loading
    ensures r.0 && Acceptable(reply) ==>
      r.1.data == reply.result && r.1.error.None? && r.1.lastFetch == Some(now)
    ensures r.0 && !Acceptable(reply) ==>
      r.1.data == s.data && r.1.lastFetch == s.lastFetch && r.1.error == Some(FailureMessage(reply))
  {
    if NonZero(latitude).None? || NonZero(longitude).None? then
      (false, s.(error := Some(MissingLocationMessage)))
    else if Acceptable(reply) then
      (true, HookState(reply.result, false, None, Some(now)))
    else
      (true, s.(loading := false, error := Some(FailureMessage(reply))))
  }

  /** A coordinate of 0 is never sent, even though the positional style
      keeps it: the guard reads it as missing. */
  lemma ZeroCoordinateNeverFetched(s: HookState, longitude: Option<real>, reply: Reply, now: int)
    ensures !FetchAqi(s, Some(0.0), longitude, reply, now).0
    ensures FetchAqi(s, Some(0.0), longitude, reply, now).1.error == Some(MissingLocationMessage)
  {
  }

  /** A body without a numeric `aqi` leaves the previous data in place and
      reports it as invalid. */
  lemma InvalidBodyKeepsData(s: HookState, latitude: real, longitude: real, r: Received, now: int)
    requires latitude != 0.0 && longitude != 0.0 && r.aqi.None?
    ensures FetchAqi(s, Some(latitude), Some(longitude), Body(Some(r)), now).1.data == s.data
    ensures FetchAqi(s, Some(latitude), Some(longitude), Body(Some(r)), now).1.error == Some(InvalidDataMessage)
  {
  }
}
