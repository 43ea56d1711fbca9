/** What the route handlers share: the JSON response they return, the
    truthiness of query parameters, and the latitude/longitude validation
    that both the AQI and the weather `GET` handlers run before touching
    their cache or any provider. */
module Http {
  import opened Wrappers

  /** `NextResponse.json(body)` on success, or an `{ error }` body with a
      non-200 status. */
  datatype Response<T> = Ok(body: T) | Error(status: int, message: string)

  /** `searchParams.get(name)` is truthy: present and not empty. */
  predicate Truthy(p: Option<string>) {
    p.Some? && p.value != ""
  }

  /** `x || null` on a number: `null`, absent and `0` all become `null`. */
  function NonZero(x: Option<real>): (r: Option<real>)
    ensures r.Some? <==> x.Some? && x.value != 0.0
    ensures r.Some? ==> r == x
  {
    if x.Some? && x.value != 0.0 then x else None
  }

  datatype ValidationError = MissingParameter | NotANumber | OutOfRange {
    function Message(): string {
      match this
      case MissingParameter => "Latitude and longitude are required"
      case NotANumber => "Invalid latitude or longitude values"
      case OutOfRange => "Latitude must be between -90 and 90, longitude between -180 and 180"
    }
  }

  datatype CoordinateCheck = Valid(latitude: real, longitude: real) | Invalid(error: ValidationError)

  predicate InRange(latitude: real, longitude: real) {
    -90.0 <= latitude <= 90.0 && -180.0 <= longitude <= 180.0
  }

  /** The three guards in order: presence, `parseFloat` giving a number
      (`parse` returns `None` where `parseFloat` gives `NaN`), and range. */
  function ValidateCoordinates(lat: Option<string>, lon: Option<string>, parse: string -> Option<real>): (r: CoordinateCheck)
    ensures r == Invalid(MissingParameter) <==> !Truthy(lat) || !Truthy(lon)
    ensures r == Invalid(NotANumber) <==>
      Truthy(lat) && Truthy(lon) && (parse(lat.value).None? || parse(lon.value).None?)
    ensures r.Valid? <==>
      Truthy(lat) && Truthy(lon) && parse(lat.value).Some? && parse(lon.value).Some?
      && InRange(parse(lat.value).value, parse(lon.value).value)
    ensures r.Valid? ==> r.latitude == parse(lat.value).value && r.longitude == parse(lon.value).value
  {
    if !Truthy(lat) || !Truthy(lon) then Invalid(MissingParameter)
    else
      var la := parse(lat.value);
      var lo := parse(lon.value);
      if la.None? || lo.None? then Invalid(NotANumber)
      else if !InRange(la.value, lo.value) then Invalid(OutOfRange)
      else Valid(la.value, lo.value)
  }

  /** The cache key of the coordinate routes: the raw parameters, as
      received, joined by a comma. */
  function CoordinateKey(lat: string, lon: string): string {
    lat + "," + lon
  }
}
