/**
 * The frontend's API client: `fetchWeather` builds the query string of
 * `GET /api/v1/weather` from `{city, lat, lon}` by JavaScript truthiness.
 */
module WeatherApi {
  import opened Wrappers
  import opened Truthiness

  const BASE_URL := "/api/v1"
  const WEATHER_PATH := "weather"

  datatype ParamValue = Text(text: string) | Number(number: real)

  /** The argument object; a key left out is `undefined`. */
  datatype WeatherQuery = WeatherQuery(city: Option<string>, lat: Option<real>, lon: Option<real>)

  /** The request handed to the HTTP client. */
  datatype HttpGet = HttpGet(baseUrl: string, path: string, params: map<string, ParamValue>)

  /** The `params` object `fetchWeather` builds. */
  function QueryParams(q: WeatherQuery): (params: map<string, ParamValue>)
    ensures params.Keys <= {"city", "lat", "lon"}
    ensures "city" in params <==> TruthyText(q.city)
    ensures "lat" in params <==> TruthyNumber(q.lat) && TruthyNumber(q.lon)
    ensures "lon" in params <==> TruthyNumber(q.lat) && TruthyNumber(q.lon)
    ensures "city" in params ==> params["city"] == Text(q.city.value)
    ensures "lat" in params ==> params["lat"] == Number(q.lat.value) && params["lon"] == Number(q.lon.value)
  {
    (if TruthyText(q.city) then map["city" := Text(q.city.value)] else map[])
    + (if TruthyNumber(q.lat) && TruthyNumber(q.lon) then map["lat" := Number(q.lat.value), "lon" := Number(q.lon.value)]
       else map[])
  }

  method FetchWeather(q: WeatherQuery) returns (request: HttpGet)
    ensures request == HttpGet(BASE_URL, WEATHER_PATH, QueryParams(q))
  {
    var params: map<string, ParamValue> := map[];
    if TruthyText(q.city) {
      params := params["city" := Text(q.city.value)];
    }
    if TruthyNumber(q.lat) && TruthyNumber(q.lon) {
      params := params["lat" := Number(q.lat.value)];
      params := params["lon" := Number(q.lon.value)];
    }
    request := HttpGet(BASE_URL, WEATHER_PATH, params);
  }

  /** An empty argument object, an empty city or zero coordinates send no parameter at all. */
  lemma NothingTruthySendsNothing(q: WeatherQuery)
    requires !TruthyText(q.city) && !(TruthyNumber(q.lat) && TruthyNumber(q.lon))
    ensures QueryParams(q) == map[]
  {
  }

  /** A city and coordinates are not exclusive: all three are sent. */
  lemma CityAndCoordinatesBothSent(city: string, lat: real, lon: real)
    requires city != "" && lat != 0.0 && lon != 0.0
    ensures QueryParams(WeatherQuery(Some(city), Some(lat), Some(lon)))
         == map["city" := Text(city), "lat" := Number(lat), "lon" := Number(lon)]
  {
  }

  /** A position query sends exactly its two coordinates. */
  lemma PositionSendsOnlyCoordinates()
    ensures QueryParams(WeatherQuery(None, Some(30.0), Some(31.2))) == map["lat" := Number(30.0), "lon" := Number(31.2)]
  {
  }
}
