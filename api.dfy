/**
 * The `GET /weather` endpoint: the service's result goes back unchanged, a
 * `ValueError` becomes 404 Not Found (RFC 9110 section 15.5.5) carrying the
 * error's message, anything else 500 Internal Server Error (RFC 9110 section
 * 15.6.1) with a prefixed message.
 */
module Api {
  import opened Wrappers
  import opened WeatherModels
  import opened Services

  const NOT_FOUND := 404
  const INTERNAL_SERVER_ERROR := 500
  const INTERNAL_PREFIX := "An internal error occurred: "

  /** The endpoint's answer: the record, or an `HTTPException`. */
  datatype Response = Ok(data: WeatherData) | HttpException(statusCode: int, detail: string)

  /** The `try`/`except` around the service call. */
  function ToResponse(outcome: Result<WeatherData, ServiceError>): (resp: Response)
    ensures resp.Ok? <==> outcome.Success?
    ensures resp.Ok? ==> resp.data == outcome.value
    ensures resp.HttpException? ==> resp.statusCode == NOT_FOUND || resp.statusCode == INTERNAL_SERVER_ERROR
    ensures resp.HttpException? ==> (resp.statusCode == NOT_FOUND <==> outcome.error.ValueError?)
    ensures resp.HttpException? && resp.statusCode == NOT_FOUND ==> resp.detail == outcome.error.message
    ensures resp.HttpException? && resp.statusCode == INTERNAL_SERVER_ERROR ==>
      |resp.detail| >= |INTERNAL_PREFIX| && resp.detail[..|INTERNAL_PREFIX|] == INTERNAL_PREFIX
  {
    match outcome
    case Success(data) => Ok(data)
    case Failure(ValueError(message)) => HttpException(NOT_FOUND, message)
    case Failure(InternalError(message)) => HttpException(INTERNAL_SERVER_ERROR, INTERNAL_PREFIX + message)
  }

  /** Reads the service error back from an error response: the inverse of `ToResponse` on failures. */
  function ErrorOf(resp: Response): Option<ServiceError> {
    if resp.HttpException? && resp.statusCode == NOT_FOUND then
      Some(ValueError(resp.detail))
    else if resp.HttpException? && resp.statusCode == INTERNAL_SERVER_ERROR
         && |resp.detail| >= |INTERNAL_PREFIX| && resp.detail[..|INTERNAL_PREFIX|] == INTERNAL_PREFIX then
      Some(InternalError(resp.detail[|INTERNAL_PREFIX|..]))
    else
      None
  }

  /** No error is lost or confused with another on its way into a response. */
  lemma ErrorRoundTrip(e: ServiceError)
    ensures ErrorOf(ToResponse(Failure(e))) == Some(e)
  {
  }

  /** The endpoint: one service call with the three optional query parameters as received. */
  method GetWeatherEndpoint(service: WeatherService, city: Option<string>, lat: Option<real>, lon: Option<real>,
                            provider: Provider, fmt: Formats)
    returns (resp: Response, sent: seq<Request>)
    modifies service
    ensures !HasQuery(city, lat, lon) ==>
      resp == HttpException(NOT_FOUND, MISSING_QUERY) && sent == [] && service.cache == old(service.cache)
    ensures resp.HttpException? ==> resp.statusCode == NOT_FOUND || resp.statusCode == INTERNAL_SERVER_ERROR
    ensures resp.Ok? ==>
      && HasQuery(city, lat, lon)
      && CacheKey(city, lat, lon, fmt.showFloat) in service.cache
      && service.cache[CacheKey(city, lat, lon, fmt.showFloat)].value == resp.data
    ensures HasQuery(city, lat, lon) && CacheKey(city, lat, lon, fmt.showFloat) in old(service.cache) ==>
      && resp == Ok(old(service.cache)[CacheKey(city, lat, lon, fmt.showFloat)].value)
      && sent == []
      && service.cache == old(service.cache)
    ensures HasQuery(city, lat, lon) && CacheKey(city, lat, lon, fmt.showFloat) !in old(service.cache) ==>
      && resp == ToResponse(MissOutcome(city, lat, lon, provider, fmt))
      && sent == MissRequests(city, lat, lon, provider)
      && service.cache == if resp.Ok? then old(service.cache)[CacheKey(city, lat, lon, fmt.showFloat) := CacheEntry(resp.data, CACHE_TTL)]
                          else old(service.cache)
  {
    var outcome;
    outcome, sent := service.GetWeather(city, lat, lon, provider, fmt);
    resp := ToResponse(outcome);
  }
}
