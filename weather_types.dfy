/**
 * The record shapes the forecast pipeline hands to the presentation layer
 * (src/types/weather.ts). JavaScript numbers that hold whole values here
 * (epoch seconds, rounded temperatures, the two unpopulated counters) are `int`.
 */
module WeatherTypes {

  /** Daily temperatures, each rounded to a whole degree. */
  datatype Temp = Temp(day: int, min: int, max: int)

  /** One weather condition: a short and a long description and an icon id. */
  datatype Condition = Condition(main: string, description: string, icon: string)

  /** One day of the forecast (`WeatherData`). */
  datatype WeatherData = WeatherData(
    dt: int,
    temp: Temp,
    weather: seq<Condition>,
    humidity: int,
    windSpeed: int)

  /** The city the forecast is for. */
  datatype City = City(name: string, country: string)

  /** The whole forecast (`WeatherResponse`). */
  datatype WeatherResponse = WeatherResponse(daily: seq<WeatherData>, city: City)
}
