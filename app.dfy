/**
 * The weather widget component: the icon for a provider icon code, and the
 * four state cells (`city`, `weatherData`, `loading`, `error`) with the
 * handlers that update them.
 *
 * Each handler runs as one sequential step. What the awaited request and the
 * geolocation callbacks deliver is passed in explicitly (`FetchOutcome`,
 * `GeoOutcome`); the request a handler sends, if any, is returned.
 */
module AppComponent {
  import opened Wrappers
  import opened Truthiness
  import opened WeatherModels
  import opened WeatherApi

  /** The glyphs of the Weather Icons set the component imports. */
  datatype Glyph =
    | WiDaySunny | WiDayCloudy | WiCloud | WiCloudy | WiShowers
    | WiRain | WiThunderstorm | WiSnow | WiFog | WiNightClear
    | WiNightCloudy | WiNightShowers | WiNightRain | WiNightThunderstorm
    | WiNightSnow | WiNightFog | WiThermometer | WiStrongWind | WiHumidity

  /** The provider icon codes the component knows, with their glyphs. */
  const ICON_TABLE: map<string, Glyph> := map[
    "01d" := WiDaySunny, "01n" := WiNightClear,
    "02d" := WiDayCloudy, "02n" := WiNightCloudy,
    "03d" := WiCloud, "03n" := WiCloud,
    "04d" := WiCloudy, "04n" := WiCloudy,
    "09d" := WiShowers, "09n" := WiShowers,
    "10d" := WiRain, "10n" := WiNightRain,
    "11d" := WiThunderstorm, "11n" := WiThunderstorm,
    "13d" := WiSnow, "13n" := WiSnow,
    "50d" := WiFog, "50n" := WiFog]

  /** The glyphs an icon code can be shown as. */
  const CONDITION_GLYPHS: set<Glyph> := {
    WiDaySunny, WiNightClear, WiDayCloudy, WiNightCloudy, WiCloud, WiCloudy,
    WiShowers, WiRain, WiNightRain, WiThunderstorm, WiSnow, WiFog}

  /** `getWeatherIcon`: total, every code is shown with one of the condition glyphs. */
  function GetWeatherIcon(iconCode: string): (glyph: Glyph)
    ensures glyph in CONDITION_GLYPHS
  {
    match iconCode
    case "01d" => WiDaySunny
    case "01n" => WiNightClear
    case "02d" => WiDayCloudy
    case "02n" => WiNightCloudy
    case "03d" | "03n" => WiCloud
    case "04d" | "04n" => WiCloudy
    case "09d" | "09n" => WiShowers
    case "10d" => WiRain
    case "10n" => WiNightRain
    case "11d" | "11n" => WiThunderstorm
    case "13d" | "13n" => WiSnow
    case "50d" | "50n" => WiFog
    case _ => WiDaySunny
  }

  /** The `switch` agrees with the code table, with the clear-day glyph as default. */
  lemma GetWeatherIconMatchesTable(iconCode: string)
    ensures GetWeatherIcon(iconCode) == if iconCode in ICON_TABLE then ICON_TABLE[iconCode] else WiDaySunny
  {
  }

  /** The clear-day glyph stands for `01d` and for every code outside the table, and for nothing else. */
  lemma DefaultGlyph(iconCode: string)
    ensures GetWeatherIcon(iconCode) == WiDaySunny <==> iconCode == "01d" || iconCode !in ICON_TABLE
  {
  }

  /** Clouds, showers, thunderstorm, snow and mist look the same by day and by night. */
  lemma DayNightShareGlyph()
    ensures GetWeatherIcon("03d") == GetWeatherIcon("03n") == WiCloud
    ensures GetWeatherIcon("04d") == GetWeatherIcon("04n") == WiCloudy
    ensures GetWeatherIcon("09d") == GetWeatherIcon("09n") == WiShowers
    ensures GetWeatherIcon("11d") == GetWeatherIcon("11n") == WiThunderstorm
    ensures GetWeatherIcon("13d") == GetWeatherIcon("13n") == WiSnow
    ensures GetWeatherIcon("50d") == GetWeatherIcon("50n") == WiFog
  {
  }

  /** Clear sky, few clouds and rain have a distinct night glyph. */
  lemma DayNightDistinctGlyph()
    ensures GetWeatherIcon("01d") != GetWeatherIcon("01n")
    ensures GetWeatherIcon("02d") != GetWeatherIcon("02n")
    ensures GetWeatherIcon("10d") != GetWeatherIcon("10n")
  {
  }

  // ---------------------------------------------------------------------
  // View state and its transitions
  // ---------------------------------------------------------------------

  const FETCH_FAILED := "Failed to fetch weather data."
  const GEO_UNSUPPORTED := "Geolocation is not supported by your browser."
  const GEO_FAILED := "Unable to retrieve your location."
  const ENTER := "Enter"

  /** How the awaited request settled: the response body, or the error's `response.data.detail` if any. */
  datatype FetchOutcome = Fetched(data: WeatherData) | FetchFailed(detail: Option<string>)

  /** What the browser's geolocation does: absent, the failure callback, or the success callback. */
  datatype GeoOutcome = Unsupported | PositionUnavailable | Position(latitude: real, longitude: real)

  /** The four state cells. */
  datatype View = View(city: string, weatherData: Option<WeatherData>, loading: bool, error: Option<string>)

  const INITIAL_VIEW := View("", None, false, None)

  /** The message shown for a failed request: the server's detail when truthy, else a fixed text. */
  function ErrorText(detail: Option<string>): (message: string)
    ensures message != ""
    ensures TruthyText(detail) ==> message == detail.value
    ensures !TruthyText(detail) ==> message == FETCH_FAILED
  {
    if TruthyText(detail) then detail.value else FETCH_FAILED
  }

  /** The state while a request is in flight. */
  function Loading(v: View): View {
    v.(loading := true, error := None, weatherData := None)
  }

  /** `loadWeather`, from before the request to after it settled. */
  function AfterLoad(v: View, outcome: FetchOutcome): View {
    var w := Loading(v);
    match outcome
    case Fetched(data) => w.(weatherData := Some(data), loading := false)
    case FetchFailed(detail) => w.(error := Some(ErrorText(detail)), loading := false)
  }

  /** `handleSearch`: load by city unless the city text is empty. */
  function AfterSearch(v: View, outcome: FetchOutcome): View {
    if v.city != "" then AfterLoad(v, outcome) else v
  }

  /** `handleGeoLocation`. */
  function AfterGeoLocation(v: View, geo: GeoOutcome, outcome: FetchOutcome): View {
    match geo
    case Unsupported => v.(error := Some(GEO_UNSUPPORTED))
    case PositionUnavailable => v.(error := Some(GEO_FAILED))
    case Position(_, _) => AfterLoad(v, outcome)
  }

  /** `handleKeyPress`. */
  function AfterKeyPress(v: View, key: string, outcome: FetchOutcome): View {
    if key == ENTER then AfterSearch(v, outcome) else v
  }

  /** A settled load shows exactly one of data or error, keeps the city, and clears the loading flag. */
  lemma LoadSettlesExclusively(v: View, outcome: FetchOutcome)
    ensures var w := AfterLoad(v, outcome);
      && !w.loading && w.city == v.city
      && (w.weatherData.Some? <==> w.error.None?)
      && (outcome.Fetched? ==> w.weatherData == Some(outcome.data) && w.error == None)
      && (outcome.FetchFailed? ==> w.weatherData == None && w.error == Some(ErrorText(outcome.detail)))
  {
  }

  /** The in-flight state has neither data nor error. */
  lemma LoadingClearsResults(v: View)
    ensures Loading(v).loading && Loading(v).error == None && Loading(v).weatherData == None
    ensures Loading(v).city == v.city
  {
  }

  /** Only the empty city is skipped; a whitespace-only city is searched. */
  lemma SearchSkipsOnlyEmptyCity(v: View, outcome: FetchOutcome)
    ensures v.city == "" ==> AfterSearch(v, outcome) == v
    ensures v.city != "" ==> AfterSearch(v, outcome) == AfterLoad(v, outcome)
  {
  }

  /** The geolocation error paths set the error and leave data, loading flag and city as they were. */
  lemma GeoErrorKeepsData(v: View, geo: GeoOutcome, outcome: FetchOutcome)
    requires !geo.Position?
    ensures var w := AfterGeoLocation(v, geo, outcome);
      && w.weatherData == v.weatherData && w.loading == v.loading && w.city == v.city
      && w.error == Some(if geo.Unsupported? then GEO_UNSUPPORTED else GEO_FAILED)
  {
  }

  /** Data and an error can be on screen together: a refused position after a successful load. */
  lemma DataAndErrorCoexist(v: View, data: WeatherData, outcome: FetchOutcome)
    ensures var w := AfterGeoLocation(AfterLoad(v, Fetched(data)), PositionUnavailable, outcome);
      w.weatherData == Some(data) && w.error == Some(GEO_FAILED)
  {
  }

  /** Keys other than Enter change nothing. */
  lemma OtherKeysIgnored(v: View, key: string, outcome: FetchOutcome)
    requires key != ENTER
    ensures AfterKeyPress(v, key, outcome) == v
  {
  }

  /** Between handlers nothing is loading: every handler keeps that. */
  lemma HandlersKeepSettled(v: View, geo: GeoOutcome, key: string, outcome: FetchOutcome)
    requires !v.loading
    ensures !AfterLoad(v, outcome).loading
    ensures !AfterSearch(v, outcome).loading
    ensures !AfterGeoLocation(v, geo, outcome).loading
    ensures !AfterKeyPress(v, key, outcome).loading
  {
  }

  // ---------------------------------------------------------------------
  // The component
  // ---------------------------------------------------------------------

  class App {
    var city: string
    var weatherData: Option<WeatherData>
    var loading: bool
    var error: Option<string>

    function Snapshot(): View
      reads this
    {
      View(city, weatherData, loading, error)
    }

    /** The four `useState` cells with their initial values. */
    constructor ()
      ensures Snapshot() == INITIAL_VIEW
    {
      city, weatherData, loading, error := "", None, false, None;
    }

    /** The input's `onChange`. */
    method SetCity(value: string)
      modifies this
      ensures Snapshot() == old(Snapshot()).(city := value)
    {
      city := value;
    }

    /** The three resets `loadWeather` makes before awaiting. */
    method StartLoading()
      modifies this
      ensures Snapshot() == Loading(old(Snapshot()))
    {
      loading := true;
      error := None;
      weatherData := None;
    }

    /** `loadWeather`: reset, send the request, record how it settled, clear the loading flag. */
    method LoadWeather(query: WeatherQuery, outcome: FetchOutcome) returns (request: HttpGet)
      modifies this
      ensures request == HttpGet(BASE_URL, WEATHER_PATH, QueryParams(query))
      ensures Snapshot() == AfterLoad(old(Snapshot()), outcome)
    {
      StartLoading();
      request := FetchWeather(query);
      match outcome {
        case Fetched(data) =>
          weatherData := Some(data);
        case FetchFailed(detail) =>
          error := Some(ErrorText(detail));
      }
      loading := false;
    }

    /** `handleSearch`. */
    method HandleSearch(outcome: FetchOutcome) returns (request: Option<HttpGet>)
      modifies this
      ensures request == if old(city) != "" then Some(HttpGet(BASE_URL, WEATHER_PATH, map["city" := Text(old(city))])) else None
      ensures Snapshot() == AfterSearch(old(Snapshot()), outcome)
    {
      request := None;
      if city != "" {
        assert QueryParams(WeatherQuery(Some(city), None, None)) == map["city" := Text(city)];
        var get := LoadWeather(WeatherQuery(Some(city), None, None), outcome);
        request := Some(get);
      }
    }

    /** `handleGeoLocation`: the browser's answer is `geo`, the request's is `outcome`. */
    method HandleGeoLocation(geo: GeoOutcome, outcome: FetchOutcome) returns (request: Option<HttpGet>)
      modifies this
      ensures request == if geo.Position? then Some(HttpGet(BASE_URL, WEATHER_PATH,
                           QueryParams(WeatherQuery(None, Some(geo.latitude), Some(geo.longitude))))) else None
      ensures Snapshot() == AfterGeoLocation(old(Snapshot()), geo, outcome)
    {
      request := None;
      match geo {
        case Unsupported =>
          error := Some(GEO_UNSUPPORTED);
        case PositionUnavailable =>
          error := Some(GEO_FAILED);
        case Position(latitude, longitude) =>
          var get := LoadWeather(WeatherQuery(None, Some(latitude), Some(longitude)), outcome);
          request := Some(get);
      }
    }

    /** `handleKeyPress`: Enter searches, any other key does nothing. */
    method HandleKeyPress(key: string, outcome: FetchOutcome) returns (request: Option<HttpGet>)
      modifies this
      ensures request == if key == ENTER && old(city) != "" then
                           Some(HttpGet(BASE_URL, WEATHER_PATH, map["city" := Text(old(city))])) else None
      ensures Snapshot() == AfterKeyPress(old(Snapshot()), key, outcome)
    {
      request := None;
      if key == ENTER {
        request := HandleSearch(outcome);
      }
    }
  }
}
