# Weather lookup widget: a Dafny model

This project models the four decision layers of a small weather application:

- **Backend weather service** (`WeatherService.get_weather`). It validates the query (a city, or a latitude and longitude), derives the Redis cache key and answers from the cache when it can. Otherwise it geocodes the city (city queries only), fetches the provider's one-call record, parses it into `WeatherData`, stores it with a 900-second expiry and returns it. Parsing covers the location line, the current conditions (wind converted from m/s to km/h, condition capitalized), the forecast `daily[1:8]` and the first alert.
- **Weather endpoint** (`get_weather_endpoint`). A service result is returned unchanged. A `ValueError` becomes 404 Not Found (RFC 9110 section 15.5.5) with the error's message. Any other exception becomes 500 Internal Server Error (RFC 9110 section 15.6.1) with the detail `"An internal error occurred: "` plus the message.
- **Frontend API client** (`fetchWeather`). It builds the query string from `{city, lat, lon}` by JavaScript truthiness.
- **Frontend component** (`App`). It has four state cells (`city`, `weatherData`, `loading`, `error`), the handlers `loadWeather`, `handleSearch`, `handleGeoLocation` and `handleKeyPress`, and the icon mapping `getWeatherIcon`.

Modules, one per source file, plus shared helpers:

| module | file | models |
|---|---|---|
| `Wrappers` | wrappers.dfy | `None`/`null` and raised exceptions |
| `Truthiness` | truthiness.dfy | truthiness of strings and numbers (Python and JavaScript agree here) |
| `Text` | text.dfy | Python's `str.capitalize` |
| `WeatherModels` | weather_models.dfy | `backend/app/models/weather.py` |
| `Services` | weather_service.dfy | `backend/app/services/weather_service.py` |
| `Api` | api.dfy | `backend/app/api.py` |
| `WeatherApi` | weather_api.dfy | `frontend/src/api/weatherApi.js` |
| `AppComponent` | app.dfy | `frontend/src/App.jsx` |
| `EndToEnd` | end_to_end.dfy | how the frontend's request and the endpoint's answer meet |

Modelling choices:

- **Redis.** The store is the `cache` field of class `WeatherService`, a map from key to the stored value and the expiry it was set with.
- **Provider.** The weather provider is a `Provider` record of two functions: geocoding and one-call. Each returns a decoded body, an HTTP failure, or a body that is not JSON.
- **Requests sent.** `GetWeather` returns the provider requests it sent. This is how its contract says that a cache hit sends none.
- **Opaque formatting.** Python's `str` of a float and the local date of a timestamp are the opaque functions in `Formats`.
- **Parse failures.** The parser's lookups that the model lets fail are the keys `current`, `current.weather` and `daily` with `[0]` on the current weather list, then on each forecast day the keys `dt`, `temp` and `weather` with `weather[0]`, and finally `[0]` on the alerts. A missing key is an absent `Option`; a present list may be empty. `ParseFault` gives the text of the `KeyError`/`IndexError` the first failing lookup raises. `Parsed` requires that none fails.
- **Component handlers.** Each handler is one sequential step. How the awaited request and the geolocation callbacks end is passed in as an explicit outcome. The handlers are specified by functions on a `View` of the four cells.

Behaviour of the code worth knowing:

- **View state.** The four cells are independent. The geolocation error paths leave earlier data on screen, so an error and data can show together (`DataAndErrorCoexist`). Only a settled `loadWeather` shows exactly one of the two (`LoadSettlesExclusively`).
- **Whitespace city.** Only the empty city is skipped; a whitespace-only city is searched (`SearchSkipsOnlyEmptyCity`).
- **City and coordinates.** With all three values truthy, the frontend sends `city`, `lat` and `lon` (`CityAndCoordinatesBothSent`), and the backend uses the city (`CityOverridesCoordinates`).
- **Base URL.** The base URL is fixed to `/api/v1`.

Consequences the proofs make explicit:

- **Zero coordinates.** A latitude or longitude of exactly 0 counts as missing in both layers. A geolocation fix on the equator or the prime meridian therefore sends no parameter, and the user sees the missing-query message (`ZeroCoordinateRejected`).
- **Shared cache namespace.** City keys and coordinate keys share one namespace. A city named like the rendered coordinates, such as `30.0:31.2`, reads and writes the cache entry of those coordinates (`CityKeyCanMatchCoordinateKey`).
- **Backend test fixture.** The fixture repeats the two-element list `[{}, day]` eight times, giving 16 days. So `daily[1:8]` contains empty days, and parsing stops at `KeyError: 'dt'` (`RepeatedFixtureFaults`). The fixture the test evidently means has an empty "today" followed by seven complete days. Any such record without a `sys` key parses to location "Cairo", the current temperature and seven forecast days (`SevenDayFixtureParses`).

## Model

| member | source | states |
|---|---|---|
| `Text.Capitalize` | backend/app/services/weather_service.py:75 | `str.capitalize`: same length, first character upper-cased, all others lower-cased |
| `Text.LowerAll` | backend/app/services/weather_service.py:75 | the lower-casing `capitalize` applies after the first character: same length, character i is character i of the input lower-cased |
| `Text.CapitalizeIdempotent` | backend/app/services/weather_service.py:75 | capitalizing a capitalized string changes nothing |
| `Text.CapitalizeIgnoresCase` | backend/app/services/weather_service.py:69 | strings equal up to letter case capitalize to the same text |
| `Services.CacheKey` | backend/app/services/weather_service.py:24 | the key starts with `weather:`; after it comes the city when the city is truthy, otherwise `<lat>:<lon>` |
| `Services.CityKeyIgnoresCoordinates` | backend/app/services/weather_service.py:24 | with a city, the supplied coordinates do not affect the key |
| `Services.CityKeysInjective` | backend/app/services/weather_service.py:24 | two cities with the same key are the same city |
| `Services.CityKeyCanMatchCoordinateKey` | backend/app/services/weather_service.py:24 | the city `<lat>:<lon>` gets the same key as the coordinates `lat`, `lon` |
| `Services.Slice` | backend/app/services/weather_service.py:81 | Python slice `s[lo:hi]`: from `lo` up to `hi` or the end of `s`, possibly empty; element k is `s[lo+k]` |
| `Services.ConditionFault` | backend/app/services/weather_service.py:75 | `x['weather'][0]` raises exactly when the key is missing (`'weather'`) or the list is empty (the index error) |
| `Services.DayFault` | backend/app/services/weather_service.py:82-88 | a day raises exactly when it lacks a key the parser reads; the message is `'dt'` when `dt` is missing, else `'temp'` when `temp` is missing, else `'weather'` when `weather` is missing, else the index error for an empty `weather` |
| `Services.FirstDayFault` | backend/app/services/weather_service.py:81-88 | the loop raises iff some day in the window is ill-formed, and the error is that of the first ill-formed day: every day before it is well-formed |
| `Services.ParseFault` | backend/app/services/weather_service.py:71-90 | the parser raises iff the record is not well-formed; the message is the first failing lookup's: `'current'`, else the current conditions' `'weather'` or index error, else `'daily'`, else the first ill-formed forecast day's, else the index error for an empty alert list |
| `Services.Forecast` | backend/app/services/weather_service.py:79-88 | forecast length is `min(7, max(0, len(daily) - 1))`; entry k is day k+1 converted, in provider order |
| `Services.LocationRules` | backend/app/services/weather_service.py:67-69 | no city: `"<lat>, <lon>"` (missing keys render empty); city without country: the city as given; city with country: `capitalize(city) + ", " + country` |
| `Services.LocationWithCountryIgnoresCase` | backend/app/services/weather_service.py:68-69 | with a country, cities typed in different letter case give the same location |
| `Services.ParsedCurrent` | backend/app/services/weather_service.py:71-77 | temperature, humidity and icon are copied; wind speed is m/s times 3.6; the condition is the capitalized description |
| `Services.ParsedAlert` | backend/app/services/weather_service.py:90 | alert is absent without an `alerts` key, otherwise the first alert's `event` |
| `Services.WeekOfForecast` | backend/app/services/weather_service.py:79-81 | eight or more provider days give exactly seven forecast days, the first being tomorrow |
| `Services.UnknownCity` | backend/app/services/weather_service.py:33-41 | an empty geocoding result raises `ValueError("City '<city>' not found.")` and no weather request is sent |
| `Services.CityOverridesCoordinates` | backend/app/services/weather_service.py:33-42 | with a city, the supplied coordinates change neither the result nor the requests |
| `Services.CityUsesFirstGeocodingHit` | backend/app/services/weather_service.py:36-53 | a city query sends the geocoding request with limit 1, then a weather request at the first hit's coordinates |
| `Services.CoordinateQuerySkipsGeocoding` | backend/app/services/weather_service.py:44-53 | without a city only the weather request is sent, at the given coordinates, in metric units, excluding minutely and hourly data |
| `Services.MissSuccessIsParsedRecord` | backend/app/services/weather_service.py:53-58 | a successful miss is the parse of the provider's well-formed record for the coordinates used |
| `Services.WeatherService.constructor` | backend/app/services/weather_service.py:11 | the model's store starts empty; this is a modelling choice, since the Redis server the client connects to may already hold keys, and every `GetWeather` contract holds for any store |
| `Services.WeatherService.GetWeather` | backend/app/services/weather_service.py:20-63 | invalid query: `ValueError` and nothing sent or stored; hit: the cached value and nothing sent; miss: the miss outcome and requests, and on success the value stored under the key with expiry `CACHE_TTL`; every success leaves its value in the cache under its key |
| `Services.WeatherService.ParseRawWeatherData` | backend/app/services/weather_service.py:65-92 | the forecast loop builds the record `Parsed` describes |
| `Services.Repeat` | backend/tests/test_weather_service.py:14-18 | Python's `list * n`: `n` times the length, starting with the list, every element equal to the one a list-length earlier |
| `Services.RepeatedFixtureFaults` | backend/tests/test_weather_service.py:8-19 | the fixture as written makes the parser raise `KeyError: 'dt'` |
| `Services.SevenDayFixtureParses` | backend/tests/test_weather_service.py:33-38 | an empty today followed by seven complete days, without `sys`, parses with location "Cairo", the current temperature and seven forecast days |
| `Api.ToResponse` | backend/app/api.py:20-27 | success passes through unchanged; errors get 404 exactly for `ValueError`, with its message as detail, and otherwise 500 with the prefixed detail; no other status |
| `Api.ErrorRoundTrip` | backend/app/api.py:23-27 | the service error can be read back from the status and detail |
| `Api.GetWeatherEndpoint` | backend/app/api.py:15-27 | the endpoint passes its three parameters to the service; a missing query gives 404 with the missing-query message and leaves the cache unchanged; a cache hit returns the cached value, sends nothing and leaves the cache unchanged; a miss answers `ToResponse` of the miss outcome, sends the miss requests, and stores a 200 answer under the query's key with expiry `CACHE_TTL`, leaving the cache unchanged otherwise; the status is always 200, 404 or 500 |
| `WeatherApi.QueryParams` | frontend/src/api/weatherApi.js:11-16 | `city` is sent iff truthy; `lat` and `lon` are sent together iff both are truthy; values pass unchanged; no other key |
| `WeatherApi.FetchWeather` | frontend/src/api/weatherApi.js:10-18 | the GET to `/api/v1` `weather` carries the parameters `QueryParams` describes |
| `WeatherApi.NothingTruthySendsNothing` | frontend/src/api/weatherApi.js:11-16 | an empty object, an empty city or a zero coordinate without a city sends no parameter |
| `WeatherApi.CityAndCoordinatesBothSent` | frontend/src/api/weatherApi.js:12-16 | with all three truthy, all three are sent |
| `WeatherApi.PositionSendsOnlyCoordinates` | frontend/src/api/weatherApi.js:13-16 | the position (30.0, 31.2) sends exactly `lat` and `lon` |
| `AppComponent.GetWeatherIcon` | frontend/src/App.jsx:14-30 | every code yields one of the twelve condition glyphs |
| `AppComponent.GetWeatherIconMatchesTable` | frontend/src/App.jsx:15-28 | the mapping is the eighteen-code table, with `WiDaySunny` as default |
| `AppComponent.DefaultGlyph` | frontend/src/App.jsx:16-28 | `WiDaySunny` is shown exactly for `01d` and for codes outside the table |
| `AppComponent.DayNightShareGlyph` | frontend/src/App.jsx:20-27 | codes 03, 04, 09, 11, 13 and 50 get the same glyph by day and by night |
| `AppComponent.DayNightDistinctGlyph` | frontend/src/App.jsx:16-24 | codes 01, 02 and 10 get different glyphs by day and by night |
| `AppComponent.ErrorText` | frontend/src/App.jsx:46 | the error shown is the server's detail when truthy, else `'Failed to fetch weather data.'`; it is never empty |
| `AppComponent.LoadSettlesExclusively` | frontend/src/App.jsx:38-50 | after `loadWeather` nothing is loading, the city is kept, and exactly one of data or error is set: the response data on success, the error text on failure |
| `AppComponent.LoadingClearsResults` | frontend/src/App.jsx:39-41 | before the await, loading is true and error and data are cleared |
| `AppComponent.SearchSkipsOnlyEmptyCity` | frontend/src/App.jsx:52-54 | an empty city leaves all four cells unchanged; any other city, whitespace included, loads |
| `AppComponent.GeoErrorKeepsData` | frontend/src/App.jsx:57-66 | the unsupported and failure paths set their error and leave data, loading flag and city unchanged |
| `AppComponent.DataAndErrorCoexist` | frontend/src/App.jsx:44-62 | a refused position after a successful load shows the data and an error together |
| `AppComponent.OtherKeysIgnored` | frontend/src/App.jsx:70-75 | keys other than Enter change no state |
| `AppComponent.HandlersKeepSettled` | frontend/src/App.jsx:38-75 | no handler leaves the loading flag set if it was clear before |
| `AppComponent.App.constructor` | frontend/src/App.jsx:33-36 | the cells start as `''`, null, false, null |
| `AppComponent.App.SetCity` | frontend/src/App.jsx:83 | typing changes only the city |
| `AppComponent.App.StartLoading` | frontend/src/App.jsx:39-41 | sets loading and clears error and data |
| `AppComponent.App.LoadWeather` | frontend/src/App.jsx:38-50 | sends the request `fetchWeather` builds and leaves the state `AfterLoad` describes |
| `AppComponent.App.HandleSearch` | frontend/src/App.jsx:52-54 | sends `{city}` iff the city is non-empty, with the state `AfterSearch` describes |
| `AppComponent.App.HandleGeoLocation` | frontend/src/App.jsx:56-67 | only a position sends a request, carrying the position's coordinates; the state is the one `AfterGeoLocation` describes |
| `AppComponent.App.HandleKeyPress` | frontend/src/App.jsx:70-75 | only Enter with a non-empty city sends a request; the state is the one `AfterKeyPress` describes |
| `EndToEnd.BackendAcceptsWhatFrontendSends` | backend/app/services/weather_service.py:21-22 | the endpoint accepts a frontend query exactly when the frontend sends some parameter |
| `EndToEnd.ZeroCoordinateRejected` | frontend/src/api/weatherApi.js:13 | a geolocation fix with a zero coordinate sends nothing, gets the 404 missing-query message, and shows it without data |
| `EndToEnd.ShownErrorIsEndpointDetail` | frontend/src/App.jsx:46 | a non-empty endpoint detail is shown verbatim; an empty `ValueError` message shows the fallback text |
| `EndToEnd.ShownDataIsServiceResult` | backend/app/api.py:21-22 | a successful service result is what the component shows, with no error |
| `EndToEnd.UnknownCityReachesUser` | backend/app/api.py:23-24 | searching an unknown city with a cache miss ends with `City '<city>' not found.` on screen |

## Left out

- Redis connection errors, the server-side expiry of keys, and the JSON round trip of the cached value. The cache stores the `WeatherData` value with the TTL it was set with.
- The httpx transport, the request URLs and the API key. The provider is a pair of functions, and a request is recorded by its query values.
- async/await and overlapping requests. Each handler and each service call is one atomic step, so the out-of-order race between two submissions is not modelled.
- The text of Python's `str(float)` and of `datetime.fromtimestamp(...).strftime('%Y-%m-%d')`. Both depend on float printing or on the local timezone, so they are opaque parameters. The opaque date function is total: the error `datetime.fromtimestamp` raises for an out-of-range `dt` is not modelled (a `ValueError` there would be answered with 404, an `OverflowError` or `OSError` with 500).
- Floating point. Temperatures, coordinates and the ×3.6 wind conversion are Dafny `real`s with exact arithmetic. NaN is not modelled: it is truthy in Python and falsy in JavaScript.
- `Text.Capitalize`, `Text.LowerAll`: only ASCII case mapping. Python also maps non-ASCII letters and title-cases the first character.
- Raw-record keys other than those in `ParseFault` (`current`, `daily`, `weather`, `dt`, `temp`) are assumed present: `current.temp`, `humidity`, `wind_speed`, `description`, `icon`, `temp.max`/`temp.min`, geocoding `lat`/`lon`. So are value types: a `sys` of `null`, or a non-integer humidity rejected by Pydantic validation, is not modelled.
- FastAPI's own 422 answer for a `lat`/`lon` that is not a number. That detail is a list, not a string.
- Rendering: the JSX layout, `toFixed` and `toLocaleDateString`. `getWeatherIcon` returns glyph names instead of React elements.
- Application wiring in `backend/app/main.py` (CORS, health check) and settings loading in `backend/app/core/config.py`. Only `CACHE_TTL = 900` is used.
