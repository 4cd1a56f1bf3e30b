/**
 * The backend weather service: validation of the query, the cache key, the
 * cache-aside lookup against the weather provider, and the translation of the
 * provider's raw record into `WeatherData`.
 *
 * The provider (geocoding and one-call HTTP endpoints) is a record of two
 * functions; the Redis store is a map held in a field of the service; the
 * rendering of a float by Python's `str` and the local-time date of a Unix
 * timestamp are opaque functions passed in as `Formats`.
 */
module Services {
  import opened Wrappers
  import opened Truthiness
  import opened Text
  import opened WeatherModels

  /** Cache expiry in seconds (15 minutes). */
  const CACHE_TTL: nat := 900
  const KEY_PREFIX := "weather:"
  const MISSING_QUERY := "Either city or latitude/longitude must be provided."
  /** `str(IndexError)` for `[0]` on an empty list. */
  const INDEX_ERROR := "list index out of range"
  /** Query constants sent with every provider request. */
  const GEO_LIMIT := 1
  const UNITS := "metric"
  const EXCLUDE := "minutely,hourly"

  // ---------------------------------------------------------------------
  // The provider's raw one-call record. Keys the parser reads with `[...]`
  // and that may be missing are `Option`s (a missing key raises `KeyError`);
  // a present list may be empty (`[0]` on it raises `IndexError`). Keys
  // read with `.get(...)` are `Option`s as well.
  // ---------------------------------------------------------------------

  datatype RawCondition = RawCondition(description: string, icon: string)
  datatype RawCurrent = RawCurrent(temp: real, humidity: int, windSpeed: real, weather: Option<seq<RawCondition>>)
  datatype RawTemp = RawTemp(max: real, min: real)
  datatype RawDay = RawDay(dt: Option<int>, temp: Option<RawTemp>, weather: Option<seq<RawCondition>>)
  datatype RawSys = RawSys(country: Option<string>)
  datatype RawAlert = RawAlert(event: Option<string>)
  datatype RawWeather = RawWeather(
    lat: Option<real>,
    lon: Option<real>,
    sys: Option<RawSys>,
    current: Option<RawCurrent>,
    daily: Option<seq<RawDay>>,
    alerts: Option<seq<RawAlert>>)

  /** Python's `str` of a float, and the local `%Y-%m-%d` date of a timestamp. */
  datatype Formats = Formats(showFloat: real -> string, dateOf: int -> string)

  /** One entry of the geocoding reply. */
  datatype GeoHit = GeoHit(lat: real, lon: real)

  /**
   * A provider reply: a decoded JSON body, an HTTP error status or transport
   * failure (raised by httpx), or a body that is not JSON.
   */
  datatype Reply<T> = Body(body: T) | HttpFailure(message: string) | NotJson(message: string)

  datatype Provider = Provider(
    geocode: string -> Reply<seq<GeoHit>>,
    oneCall: (real, real) -> Reply<RawWeather>)

  /** The HTTP requests the service sends to the provider. */
  datatype Request =
    | GeoRequest(q: string, limit: int)
    | OneCallRequest(lat: real, lon: real, units: string, exclude: string)

  /** `ValueError` (and its subclasses) versus every other exception. */
  datatype ServiceError = ValueError(message: string) | InternalError(message: string)

  /** A cached value with the expiry it was stored with. */
  datatype CacheEntry = CacheEntry(value: WeatherData, ttl: nat)

  function Min(a: int, b: int): int { if a <= b then a else b }
  function Max(a: int, b: int): int { if a <= b then b else a }

  // ---------------------------------------------------------------------
  // Validation and cache key
  // ---------------------------------------------------------------------

  /** The query is accepted: a truthy city, or both coordinates truthy (0 is missing). */
  predicate HasQuery(city: Option<string>, lat: Option<real>, lon: Option<real>) {
    TruthyText(city) || (TruthyNumber(lat) && TruthyNumber(lon))
  }

  function CityNotFound(city: string): string {
    "City '" + city + "' not found."
  }

  /** `weather:<city>` when a city is given, otherwise `weather:<lat>:<lon>`. */
  function CacheKey(city: Option<string>, lat: Option<real>, lon: Option<real>, show: real -> string): (key: string)
    requires HasQuery(city, lat, lon)
    ensures |key| >= |KEY_PREFIX| && key[..|KEY_PREFIX|] == KEY_PREFIX
    ensures TruthyText(city) ==> key[|KEY_PREFIX|..] == city.value
    ensures !TruthyText(city) ==> key[|KEY_PREFIX|..] == show(lat.value) + ":" + show(lon.value)
  {
    if TruthyText(city) then KEY_PREFIX + city.value
    else KEY_PREFIX + show(lat.value) + ":" + show(lon.value)
  }

  /** With a city, the coordinates do not take part in the key. */
  lemma CityKeyIgnoresCoordinates(city: Option<string>, lat1: Option<real>, lon1: Option<real>,
                                  lat2: Option<real>, lon2: Option<real>, show: real -> string)
    requires TruthyText(city)
    ensures CacheKey(city, lat1, lon1, show) == CacheKey(city, lat2, lon2, show)
  {
  }

  /** Distinct cities never share a cache slot. */
  lemma CityKeysInjective(c1: string, c2: string, show: real -> string)
    requires c1 != "" && c2 != ""
    requires CacheKey(Some(c1), None, None, show) == CacheKey(Some(c2), None, None, show)
    ensures c1 == c2
  {
  }

  /**
   * The two key forms share one namespace: a city literally named after the
   * rendered coordinates reads and writes the coordinates' cache slot.
   */
  lemma CityKeyCanMatchCoordinateKey(lat: real, lon: real, show: real -> string)
    requires lat != 0.0 && lon != 0.0
    ensures CacheKey(Some(show(lat) + ":" + show(lon)), None, None, show)
         == CacheKey(None, Some(lat), Some(lon), show)
  {
  }

  // ---------------------------------------------------------------------
  // Parsing the raw record
  // ---------------------------------------------------------------------

  /** Python's `daily[lo:hi]` for non-negative bounds. */
  function Slice<T>(s: seq<T>, lo: nat, hi: nat): (r: seq<T>)
    ensures |r| == if lo < hi && lo < |s| then Min(hi, |s|) - lo else 0
    ensures forall k :: 0 <= k < |r| ==> r[k] == s[lo + k]
  {
    if lo < hi && lo < |s| then s[lo..Min(hi, |s|)] else []
  }

  /** The days the forecast is built from: `daily[1:8]`. */
  function ForecastWindow(daily: seq<RawDay>): seq<RawDay> {
    Slice(daily, 1, 8)
  }

  /** `x['weather'][0]` succeeds: the key is present and the list is not empty. */
  predicate HasCondition(weather: Option<seq<RawCondition>>) {
    weather.Some? && |weather.value| > 0
  }

  /** A forecast day has every key the parser reads. */
  predicate DayWellFormed(d: RawDay) {
    d.dt.Some? && d.temp.Some? && HasCondition(d.weather)
  }

  /** Every lookup the parser makes succeeds. */
  predicate WellFormed(raw: RawWeather) {
    && raw.current.Some? && HasCondition(raw.current.value.weather)
    && raw.daily.Some?
    && (forall k :: 0 <= k < |ForecastWindow(raw.daily.value)| ==> DayWellFormed(ForecastWindow(raw.daily.value)[k]))
    && (raw.alerts.Some? ==> |raw.alerts.value| > 0)
  }

  /** The text of the exception `x['weather'][0]` raises, if any. */
  function ConditionFault(weather: Option<seq<RawCondition>>): (fault: Option<string>)
    ensures fault.None? <==> HasCondition(weather)
    ensures weather.None? ==> fault == Some("'weather'")
    ensures weather.Some? && |weather.value| == 0 ==> fault == Some(INDEX_ERROR)
  {
    if weather.None? then Some("'weather'")
    else if |weather.value| == 0 then Some(INDEX_ERROR)
    else None
  }

  /** The text of the exception the first failing lookup on a day raises, in keyword order. */
  function DayFault(d: RawDay): (fault: Option<string>)
    ensures fault.None? <==> DayWellFormed(d)
    ensures d.dt.None? ==> fault == Some("'dt'")
    ensures d.dt.Some? && d.temp.None? ==> fault == Some("'temp'")
    ensures d.dt.Some? && d.temp.Some? ==> fault == ConditionFault(d.weather)
  {
    if d.dt.None? then Some("'dt'")
    else if d.temp.None? then Some("'temp'")
    else ConditionFault(d.weather)
  }

  /** The fault of the first ill-formed day, walking the days in order. */
  function FirstDayFault(days: seq<RawDay>): (fault: Option<string>)
    ensures fault.None? <==> forall k :: 0 <= k < |days| ==> DayWellFormed(days[k])
    ensures fault.Some? ==>
      exists k :: 0 <= k < |days| && fault == DayFault(days[k]) && forall j :: 0 <= j < k ==> DayWellFormed(days[j])
  {
    if days == [] then None
    else if DayFault(days[0]).Some? then DayFault(days[0])
    else
      var rest := FirstDayFault(days[1..]);
      assert forall k :: 1 <= k < |days| ==> days[k] == days[1..][k - 1];
      if rest.Some? then
        var k :| 0 <= k < |days| - 1 && rest == DayFault(days[1..][k]) && forall j :: 0 <= j < k ==> DayWellFormed(days[1..][j]);
        assert forall j :: 0 <= j < k + 1 ==> DayWellFormed(days[j]);
        rest
      else
        rest
  }

  /**
   * The message of the `KeyError`/`IndexError` the parser raises, in the order
   * it reads the record: current conditions, then each forecast day, then the
   * first alert. `None` when parsing succeeds.
   */
  function ParseFault(raw: RawWeather): (fault: Option<string>)
    ensures fault.None? <==> WellFormed(raw)
    ensures raw.current.None? ==> fault == Some("'current'")
    ensures raw.current.Some? && !HasCondition(raw.current.value.weather) ==>
      fault == ConditionFault(raw.current.value.weather)
    ensures raw.current.Some? && HasCondition(raw.current.value.weather) && raw.daily.None? ==>
      fault == Some("'daily'")
    ensures raw.current.Some? && HasCondition(raw.current.value.weather) && raw.daily.Some?
            && FirstDayFault(ForecastWindow(raw.daily.value)).Some? ==>
      fault == FirstDayFault(ForecastWindow(raw.daily.value))
    ensures raw.current.Some? && HasCondition(raw.current.value.weather) && raw.daily.Some?
            && FirstDayFault(ForecastWindow(raw.daily.value)).None? && raw.alerts.Some? ==>
      (fault.Some? <==> |raw.alerts.value| == 0) && (fault.Some? ==> fault == Some(INDEX_ERROR))
  {
    if raw.current.None? then Some("'current'")
    else if !HasCondition(raw.current.value.weather) then ConditionFault(raw.current.value.weather)
    else if raw.daily.None? then Some("'daily'")
    else if FirstDayFault(ForecastWindow(raw.daily.value)).Some? then FirstDayFault(ForecastWindow(raw.daily.value))
    else if raw.alerts.Some? && |raw.alerts.value| == 0 then Some(INDEX_ERROR)
    else None
  }

  /** `f"{raw.get('lat', '')}"`: the float's text, or nothing when the key is absent. */
  function CoordinateText(x: Option<real>, show: real -> string): string {
    if x.Some? then show(x.value) else ""
  }

  /** The location line shown to the user. */
  function Location(raw: RawWeather, cityName: Option<string>, show: real -> string): string {
    if TruthyText(cityName) && raw.sys.Some? && TruthyText(raw.sys.value.country) then
      Capitalize(cityName.value) + ", " + raw.sys.value.country.value
    else if TruthyText(cityName) then
      cityName.value
    else
      CoordinateText(raw.lat, show) + ", " + CoordinateText(raw.lon, show)
  }

  /** The provider reports wind in m/s; the record holds km/h. */
  function KilometresPerHour(metresPerSecond: real): real {
    metresPerSecond * 3.6
  }

  function ToCurrentWeather(c: RawCurrent): CurrentWeather
    requires HasCondition(c.weather)
  {
    CurrentWeather(
      temperature := c.temp,
      humidity := c.humidity,
      windSpeed := KilometresPerHour(c.windSpeed),
      condition := Capitalize(c.weather.value[0].description),
      icon := c.weather.value[0].icon)
  }

  function ToForecastDay(d: RawDay, dateOf: int -> string): ForecastDay
    requires DayWellFormed(d)
  {
    ForecastDay(
      date := dateOf(d.dt.value),
      tempMax := d.temp.value.max,
      tempMin := d.temp.value.min,
      condition := Capitalize(d.weather.value[0].description),
      icon := d.weather.value[0].icon)
  }

  /** The forecast: the day after today and the six after it, in the provider's order. */
  function Forecast(daily: seq<RawDay>, dateOf: int -> string): (forecast: seq<ForecastDay>)
    requires forall k :: 0 <= k < |ForecastWindow(daily)| ==> DayWellFormed(ForecastWindow(daily)[k])
    ensures |forecast| == Min(7, Max(0, |daily| - 1))
    ensures forall k :: 0 <= k < |forecast| ==> DayWellFormed(daily[k + 1]) && forecast[k] == ToForecastDay(daily[k + 1], dateOf)
  {
    var window := ForecastWindow(daily);
    seq(|window|, k requires 0 <= k < |window| => ToForecastDay(window[k], dateOf))
  }

  /** `alert` is absent without an `alerts` key, otherwise the first alert's `event`. */
  function Alert(raw: RawWeather): Option<string>
    requires raw.alerts.Some? ==> |raw.alerts.value| > 0
  {
    if raw.alerts.Some? then raw.alerts.value[0].event else None
  }

  /** The `WeatherData` a well-formed raw record parses to. */
  function Parsed(raw: RawWeather, cityName: Option<string>, fmt: Formats): WeatherData
    requires WellFormed(raw)
  {
    WeatherData(
      location := Location(raw, cityName, fmt.showFloat),
      current := ToCurrentWeather(raw.current.value),
      forecast := Forecast(raw.daily.value, fmt.dateOf),
      alert := Alert(raw))
  }

  /** The location is the city as typed unless the provider names a country. */
  lemma LocationRules(raw: RawWeather, cityName: Option<string>, show: real -> string)
    ensures !TruthyText(cityName) ==>
      Location(raw, cityName, show) == CoordinateText(raw.lat, show) + ", " + CoordinateText(raw.lon, show)
    ensures TruthyText(cityName) && (raw.sys.None? || !TruthyText(raw.sys.value.country)) ==>
      Location(raw, cityName, show) == cityName.value
    ensures TruthyText(cityName) && raw.sys.Some? && TruthyText(raw.sys.value.country) ==>
      Location(raw, cityName, show) == Capitalize(cityName.value) + ", " + raw.sys.value.country.value
  {
  }

  /** With a country, the city's letter case as typed does not show in the location. */
  lemma LocationWithCountryIgnoresCase(raw: RawWeather, c1: string, c2: string, show: real -> string)
    requires c1 != "" && c2 != "" && LowerAll(c1) == LowerAll(c2)
    requires raw.sys.Some? && TruthyText(raw.sys.value.country)
    ensures Location(raw, Some(c1), show) == Location(raw, Some(c2), show)
  {
    CapitalizeIgnoresCase(c1, c2);
  }

  /** Current conditions: wind converted to km/h, condition capitalized, the rest copied. */
  lemma ParsedCurrent(raw: RawWeather, cityName: Option<string>, fmt: Formats)
    requires WellFormed(raw)
    ensures Parsed(raw, cityName, fmt).current.temperature == raw.current.value.temp
    ensures Parsed(raw, cityName, fmt).current.humidity == raw.current.value.humidity
    ensures Parsed(raw, cityName, fmt).current.windSpeed == KilometresPerHour(raw.current.value.windSpeed)
    ensures Parsed(raw, cityName, fmt).current.condition == Capitalize(raw.current.value.weather.value[0].description)
    ensures Parsed(raw, cityName, fmt).current.icon == raw.current.value.weather.value[0].icon
  {
  }

  /** The alert rule, both ways. */
  lemma ParsedAlert(raw: RawWeather, cityName: Option<string>, fmt: Formats)
    requires WellFormed(raw)
    ensures Parsed(raw, cityName, fmt).alert.Some? ==> raw.alerts.Some?
    ensures raw.alerts.Some? ==> Parsed(raw, cityName, fmt).alert == raw.alerts.value[0].event
  {
  }

  /** A provider record with eight or more days yields exactly seven forecast days. */
  lemma WeekOfForecast(raw: RawWeather, cityName: Option<string>, fmt: Formats)
    requires WellFormed(raw) && |raw.daily.value| >= 8
    ensures |Parsed(raw, cityName, fmt).forecast| == 7
    ensures Parsed(raw, cityName, fmt).forecast[0] == ToForecastDay(raw.daily.value[1], fmt.dateOf)
  {
  }

  // ---------------------------------------------------------------------
  // The cache-miss path as specification functions
  // ---------------------------------------------------------------------

  /** The exception a failed provider reply raises; `JSONDecodeError` is a `ValueError`. */
  function ReplyError<T>(reply: Reply<T>): ServiceError
    requires !reply.Body?
  {
    match reply
    case HttpFailure(m) => InternalError(m)
    case NotJson(m) => ValueError(m)
  }

  /** The coordinates the weather request uses: the first geocoding hit for a city, else the query's own. */
  function Coordinates(city: Option<string>, lat: Option<real>, lon: Option<real>, provider: Provider): Result<(real, real), ServiceError>
    requires HasQuery(city, lat, lon)
  {
    if TruthyText(city) then
      match provider.geocode(city.value)
      case Body(hits) =>
        if |hits| == 0 then Failure(ValueError(CityNotFound(city.value)))
        else Success((hits[0].lat, hits[0].lon))
      case _ => Failure(ReplyError(provider.geocode(city.value)))
    else
      Success((lat.value, lon.value))
  }

  /** The result of a lookup that missed the cache. */
  function MissOutcome(city: Option<string>, lat: Option<real>, lon: Option<real>, provider: Provider, fmt: Formats): Result<WeatherData, ServiceError>
    requires HasQuery(city, lat, lon)
  {
    match Coordinates(city, lat, lon, provider)
    case Failure(e) => Failure(e)
    case Success(position) =>
      match provider.oneCall(position.0, position.1)
      case Body(raw) =>
        if ParseFault(raw).Some? then Failure(InternalError(ParseFault(raw).value))
        else Success(Parsed(raw, city, fmt))
      case _ => Failure(ReplyError(provider.oneCall(position.0, position.1)))
  }

  /** The provider requests a lookup that missed the cache sends, in order. */
  function MissRequests(city: Option<string>, lat: Option<real>, lon: Option<real>, provider: Provider): seq<Request>
    requires HasQuery(city, lat, lon)
  {
    (if TruthyText(city) then [GeoRequest(city.value, GEO_LIMIT)] else [])
    + match Coordinates(city, lat, lon, provider)
      case Success(position) => [OneCallRequest(position.0, position.1, UNITS, EXCLUDE)]
      case Failure(_) => []
  }

  /** An unknown city is a `ValueError`, and no weather request follows the geocoding one. */
  lemma UnknownCity(city: string, lat: Option<real>, lon: Option<real>, provider: Provider, fmt: Formats)
    requires city != "" && provider.geocode(city) == Body([])
    ensures MissOutcome(Some(city), lat, lon, provider, fmt) == Failure(ValueError("City '" + city + "' not found."))
    ensures MissRequests(Some(city), lat, lon, provider) == [GeoRequest(city, GEO_LIMIT)]
  {
  }

  /** With a city, coordinates supplied alongside it change nothing. */
  lemma CityOverridesCoordinates(city: string, lat1: Option<real>, lon1: Option<real>,
                                 lat2: Option<real>, lon2: Option<real>, provider: Provider, fmt: Formats)
    requires city != ""
    ensures MissOutcome(Some(city), lat1, lon1, provider, fmt) == MissOutcome(Some(city), lat2, lon2, provider, fmt)
    ensures MissRequests(Some(city), lat1, lon1, provider) == MissRequests(Some(city), lat2, lon2, provider)
  {
  }

  /** A found city is looked up at its first geocoding hit. */
  lemma CityUsesFirstGeocodingHit(city: string, lat: Option<real>, lon: Option<real>, provider: Provider)
    requires city != "" && provider.geocode(city).Body? && |provider.geocode(city).body| > 0
    ensures MissRequests(Some(city), lat, lon, provider)
         == [GeoRequest(city, GEO_LIMIT),
             OneCallRequest(provider.geocode(city).body[0].lat, provider.geocode(city).body[0].lon, UNITS, EXCLUDE)]
  {
  }

  /** Without a city, the query's coordinates go straight to the weather request. */
  lemma CoordinateQuerySkipsGeocoding(city: Option<string>, lat: real, lon: real, provider: Provider)
    requires !TruthyText(city) && lat != 0.0 && lon != 0.0
    ensures MissRequests(city, Some(lat), Some(lon), provider) == [OneCallRequest(lat, lon, UNITS, EXCLUDE)]
  {
  }

  /** A successful miss returns the parse of the provider's record for the coordinates used. */
  lemma MissSuccessIsParsedRecord(city: Option<string>, lat: Option<real>, lon: Option<real>, provider: Provider, fmt: Formats)
    requires HasQuery(city, lat, lon) && MissOutcome(city, lat, lon, provider, fmt).Success?
    ensures Coordinates(city, lat, lon, provider).Success?
    ensures var p := Coordinates(city, lat, lon, provider).value;
            provider.oneCall(p.0, p.1).Body? && WellFormed(provider.oneCall(p.0, p.1).body)
            && MissOutcome(city, lat, lon, provider, fmt).value == Parsed(provider.oneCall(p.0, p.1).body, city, fmt)
  {
  }

  // ---------------------------------------------------------------------
  // The service
  // ---------------------------------------------------------------------

  class WeatherService {
    /** The Redis store: key to cached value and the expiry it was set with. */
    var cache: map<string, CacheEntry>

    constructor ()
      ensures cache == map[]
    {
      cache := map[];
    }

    /**
     * Validate the query, answer from the cache when possible, otherwise
     * geocode (city queries only), fetch, parse, store with `CACHE_TTL` and
     * return. `sent` lists the provider requests made, in order.
     */
    method GetWeather(city: Option<string>, lat: Option<real>, lon: Option<real>, provider: Provider, fmt: Formats)
      returns (r: Result<WeatherData, ServiceError>, sent: seq<Request>)
      modifies this
      ensures !HasQuery(city, lat, lon) ==>
        r == Failure(ValueError(MISSING_QUERY)) && sent == [] && cache == old(cache)
      ensures HasQuery(city, lat, lon) && CacheKey(city, lat, lon, fmt.showFloat) in old(cache) ==>
        r == Success(old(cache)[CacheKey(city, lat, lon, fmt.showFloat)].value) && sent == [] && cache == old(cache)
      ensures HasQuery(city, lat, lon) && CacheKey(city, lat, lon, fmt.showFloat) !in old(cache) ==>
        && r == MissOutcome(city, lat, lon, provider, fmt)
        && sent == MissRequests(city, lat, lon, provider)
        && cache == if r.Success? then old(cache)[CacheKey(city, lat, lon, fmt.showFloat) := CacheEntry(r.value, CACHE_TTL)]
                    else old(cache)
      ensures r.Success? ==>
        && HasQuery(city, lat, lon)
        && CacheKey(city, lat, lon, fmt.showFloat) in cache
        && cache[CacheKey(city, lat, lon, fmt.showFloat)].value == r.value
    {
      if !HasQuery(city, lat, lon) {
        return Failure(ValueError(MISSING_QUERY)), [];
      }
      var key := CacheKey(city, lat, lon, fmt.showFloat);

      if key in cache {
        return Success(cache[key].value), [];
      }

      sent := [];
      var qLat, qLon := lat, lon;
      if TruthyText(city) {
        sent := sent + [GeoRequest(city.value, GEO_LIMIT)];
        var geo := provider.geocode(city.value);
        if !geo.Body? {
          return Failure(ReplyError(geo)), sent;
        }
        if |geo.body| == 0 {
          return Failure(ValueError(CityNotFound(city.value))), sent;
        }
        qLat, qLon := Some(geo.body[0].lat), Some(geo.body[0].lon);
      }

      sent := sent + [OneCallRequest(qLat.value, qLon.value, UNITS, EXCLUDE)];
      var reply := provider.oneCall(qLat.value, qLon.value);
      if !reply.Body? {
        return Failure(ReplyError(reply)), sent;
      }
      var raw := reply.body;
      var fault := ParseFault(raw);
      if fault.Some? {
        return Failure(InternalError(fault.value)), sent;
      }

      var parsed := ParseRawWeatherData(raw, city, fmt);
      cache := cache[key := CacheEntry(parsed, CACHE_TTL)];
      r := Success(parsed);
    }

    /** Build the `WeatherData` for a raw record, appending the forecast day by day. */
    method ParseRawWeatherData(raw: RawWeather, cityName: Option<string>, fmt: Formats) returns (data: WeatherData)
      requires WellFormed(raw)
      ensures data == Parsed(raw, cityName, fmt)
    {
      var location := Location(raw, cityName, fmt.showFloat);
      var current := ToCurrentWeather(raw.current.value);

      var days := ForecastWindow(raw.daily.value);
      var forecast: seq<ForecastDay> := [];
      var i := 0;
      while i < |days|
        invariant 0 <= i <= |days|
        invariant |forecast| == i
        invariant forall k :: 0 <= k < i ==> forecast[k] == ToForecastDay(days[k], fmt.dateOf)
      {
        forecast := forecast + [ToForecastDay(days[i], fmt.dateOf)];
        i := i + 1;
      }

      var alert := if raw.alerts.Some? then raw.alerts.value[0].event else None;
      data := WeatherData(location, current, forecast, alert);
    }
  }

  // ---------------------------------------------------------------------
  // The backend test's fixture
  // ---------------------------------------------------------------------

  function FixtureDay(): RawDay {
    RawDay(Some(1664182400), Some(RawTemp(30.0, 20.0)), Some([RawCondition("few clouds", "02d")]))
  }

  /** The fixture's `{}`: a day with no key at all. */
  function EmptyDay(): RawDay {
    RawDay(None, None, None)
  }

  function FixtureRecord(daily: seq<RawDay>): RawWeather {
    RawWeather(Some(30.04), Some(31.24), None,
      Some(RawCurrent(25.0, 60, 3.0, Some([RawCondition("clear sky", "01d")]))), Some(daily), None)
  }

  /** Python's `list * n`. */
  function Repeat<T>(s: seq<T>, n: nat): (r: seq<T>)
    ensures |r| == |s| * n
    ensures n > 0 ==> r[..|s|] == s
    ensures forall k :: |s| <= k < |r| ==> r[k] == r[k - |s|]
  {
    if n == 0 then [] else s + Repeat(s, n - 1)
  }

  /**
   * The fixture as written repeats the pair `[{}, day]` eight times, so the
   * window `daily[1:8]` holds empty days and the parser stops at `'dt'`.
   */
  lemma RepeatedFixtureFaults()
    ensures ParseFault(FixtureRecord(Repeat([EmptyDay(), FixtureDay()], 8))) == Some("'dt'")
  {
  }

  /**
   * An empty "today" followed by seven complete days, with no `sys` key,
   * parses as the test expects for Cairo: the city as typed, the current
   * temperature, seven forecast days.
   */
  lemma SevenDayFixtureParses(current: RawCurrent, day: RawDay, fmt: Formats)
    requires HasCondition(current.weather) && DayWellFormed(day)
    ensures var raw := RawWeather(Some(30.04), Some(31.24), None, Some(current),
                                  Some([EmptyDay(), day, day, day, day, day, day, day]), None);
            && WellFormed(raw)
            && Parsed(raw, Some("Cairo"), fmt).location == "Cairo"
            && Parsed(raw, Some("Cairo"), fmt).current.temperature == current.temp
            && |Parsed(raw, Some("Cairo"), fmt).forecast| == 7
  {
  }
}
