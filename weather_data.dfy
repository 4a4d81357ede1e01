/**
 * The parts of the weather API's JSON responses that the formatters read.
 * Numbers are exact reals; the API's floating-point values are not modelled.
 */
module WeatherData {
  import opened Calendar

  /** One element of a response's `weather` array. */
  datatype WeatherEntry = WeatherEntry(main: string, description: string, icon: string)

  /** The `main` block of a current-weather response (temperatures in degrees Celsius, pressure in hPa). */
  datatype MainBlock = MainBlock(
    temp: real,
    feelsLike: real,
    tempMin: real,
    tempMax: real,
    humidity: int,
    pressure: real)

  /**
   * A current-weather response: `sunrise`, `sunset` and `dt` are seconds since
   * the epoch, `windDeg` is `wind.deg`, `clouds` is `clouds.all`.
   */
  datatype CurrentResponse = CurrentResponse(
    main: MainBlock,
    weather: seq<WeatherEntry>,
    windDeg: real,
    clouds: int,
    sunrise: int,
    sunset: int,
    dt: int)

  /** The place a response is reported for. */
  datatype Location = Location(name: string, country: string)

  /**
   * One 3-hour element of a forecast response's `list`: its time `dt` as a
   * date, `main.temp`, and its `weather` array.
   */
  datatype Sample = Sample(date: LocalDate, temp: real, weather: seq<WeatherEntry>)
}
