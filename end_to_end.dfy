/**
 * How the layers meet: the query string the frontend builds is what the
 * endpoint validates, and the endpoint's answer is what the component shows.
 */
module EndToEnd {
  import opened Wrappers
  import opened Truthiness
  import opened WeatherModels
  import opened Services
  import opened Api
  import opened WeatherApi
  import opened AppComponent

  /** The endpoint's three optional query parameters, read from the query string. */
  function Received(params: map<string, ParamValue>): (Option<string>, Option<real>, Option<real>) {
    (if "city" in params && params["city"].Text? then Some(params["city"].text) else None,
     if "lat" in params && params["lat"].Number? then Some(params["lat"].number) else None,
     if "lon" in params && params["lon"].Number? then Some(params["lon"].number) else None)
  }

  /** What the HTTP client hands the component: the body on success, the error body's `detail` otherwise. */
  function Delivered(resp: Response): FetchOutcome {
    match resp
    case Ok(data) => Fetched(data)
    case HttpException(_, detail) => FetchFailed(Some(detail))
  }

  /** The backend accepts a query exactly when the frontend sends any parameter. */
  lemma BackendAcceptsWhatFrontendSends(q: WeatherQuery)
    ensures var r := Received(QueryParams(q));
      HasQuery(r.0, r.1, r.2) <==> QueryParams(q) != map[]
  {
  }

  /**
   * A position on the equator or the prime meridian sends no parameter, the
   * endpoint answers 404 with the missing-query message, and the component
   * shows that message and no data.
   */
  lemma ZeroCoordinateRejected(v: View, lat: real, lon: real)
    requires lat == 0.0 || lon == 0.0
    ensures QueryParams(WeatherQuery(None, Some(lat), Some(lon))) == map[]
    ensures var r := Received(map[]); !HasQuery(r.0, r.1, r.2)
    ensures var w := AfterGeoLocation(v, Position(lat, lon), Delivered(ToResponse(Failure(ValueError(MISSING_QUERY)))));
      w.error == Some(MISSING_QUERY) && w.weatherData == None && !w.loading
  {
  }

  /** A non-empty error detail from the endpoint is shown verbatim; an empty one gives the fallback text. */
  lemma ShownErrorIsEndpointDetail(v: View, e: ServiceError)
    ensures var resp := ToResponse(Failure(e));
      var w := AfterLoad(v, Delivered(resp));
      && resp.HttpException?
      && (e.InternalError? || e.message != "" ==> w.error == Some(resp.detail))
      && (e.ValueError? && e.message == "" ==> w.error == Some(FETCH_FAILED))
      && w.weatherData == None
  {
  }

  /** A successful service result is what the component shows. */
  lemma ShownDataIsServiceResult(v: View, data: WeatherData)
    ensures AfterLoad(v, Delivered(ToResponse(Success(data)))).weatherData == Some(data)
    ensures AfterLoad(v, Delivered(ToResponse(Success(data)))).error == None
  {
  }

  /** Searching an unknown city (cache miss) ends with the service's not-found message on screen. */
  lemma UnknownCityReachesUser(v: View, provider: Provider, fmt: Formats)
    requires v.city != "" && provider.geocode(v.city) == Body([])
    ensures var r := Received(QueryParams(WeatherQuery(Some(v.city), None, None)));
      && r == (Some(v.city), None, None)
      && AfterSearch(v, Delivered(ToResponse(MissOutcome(r.0, r.1, r.2, provider, fmt)))).error == Some(CityNotFound(v.city))
  {
  }
}
