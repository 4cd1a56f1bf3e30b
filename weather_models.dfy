/** The response records of the backend: one current reading, a daily forecast and an optional alert. */
module WeatherModels {
  import opened Wrappers

  /** Current conditions; `windSpeed` is in km/h, `temperature` in degrees Celsius. */
  datatype CurrentWeather = CurrentWeather(
    temperature: real,
    humidity: int,
    windSpeed: real,
    condition: string,
    icon: string)

  /** One forecast day; `date` is a `YYYY-MM-DD` string. */
  datatype ForecastDay = ForecastDay(
    date: string,
    tempMax: real,
    tempMin: real,
    condition: string,
    icon: string)

  /** What the weather endpoint returns and the cache stores. */
  datatype WeatherData = WeatherData(
    location: string,
    current: CurrentWeather,
    forecast: seq<ForecastDay>,
    alert: Option<string>)
}
