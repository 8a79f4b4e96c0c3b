/**
 * The records the weather service's JSON answers are decoded into. They are
 * values: built once by the decoder, read by the presenter, never updated.
 * Temperatures and humidity are `real`s; their 64-bit floating-point
 * representation is not part of the model.
 */
module Records {

  /** The `main` block: temperatures in the requested unit and the humidity in percent. */
  datatype MainData = MainData(temp: real, feelsLike: real, tempMax: real, humidity: real)

  /** One entry of the `weather` list; only its description is read. */
  datatype WeatherInfo = WeatherInfo(description: string)

  /** Answer of the current-weather endpoint. */
  datatype WeatherResponse = WeatherResponse(name: string, main: MainData, weather: seq<WeatherInfo>)

  /** One reading of the forecast, with its timestamp text `dt_txt` ("YYYY-MM-DD HH:MM:SS"). */
  datatype ForecastItem = ForecastItem(weather: seq<WeatherInfo>, main: MainData, dtTxt: string)

  datatype CityInfo = CityInfo(name: string)

  /** Answer of the forecast endpoint: the readings in the order the service sent them. */
  datatype ForecastResponse = ForecastResponse(list: seq<ForecastItem>, city: CityInfo)
}
