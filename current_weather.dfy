/**
 * `formatCurrentWeather` and the conversions it uses: rounding of the
 * temperatures, hPa to mmHg, and `getWindDirection`.
 */
module CurrentWeather {
  import opened Wrappers
  import opened JsSemantics
  import opened WeatherData

  /** The eight compass points in Russian, clockwise from north. */
  const Directions: seq<string> := ["С", "СВ", "В", "ЮВ", "Ю", "ЮЗ", "З", "СЗ"]

  /** Each compass sector is 45 degrees wide. */
  const SectorDegrees: real := 45.0

  /** The index `Math.round(degrees / 45) % 8`, with JavaScript's truncating `%`. */
  function WindIndex(degrees: real): (i: int)
    ensures -8 < i < 8
    ensures degrees >= 0.0 ==> 0 <= i
  {
    TruncRem(Round(degrees / SectorDegrees), 8)
  }

  /**
   * `getWindDirection(degrees)`: the compass point at that index, or `None`
   * where JavaScript indexes the table with a negative number and gets `undefined`.
   */
  function WindDirection(degrees: real): (r: Option<string>)
    ensures r.Some? <==> 0 <= WindIndex(degrees)
    ensures r.Some? ==> r.value in Directions
  {
    var i := WindIndex(degrees);
    if 0 <= i then Some(Directions[i]) else None
  }

  /** Every non-negative bearing yields one of the eight compass points. */
  lemma {:induction false} WindDirectionDefined(degrees: real)
    requires degrees >= 0.0
    ensures 0 <= WindIndex(degrees) < 8
    ensures WindDirection(degrees) == Some(Directions[WindIndex(degrees)])
  {
  }

  /**
   * A bearing within 22.5 degrees of `45 * k` (the lower edge included, the
   * upper excluded, as `Math.round` rounds halves up) names the `k`-th point,
   * counted modulo 8.
   */
  lemma {:induction false} WindSector(degrees: real, k: nat)
    requires k as real * SectorDegrees - 22.5 <= degrees < k as real * SectorDegrees + 22.5
    ensures WindDirection(degrees) == Some(Directions[k % 8])
  {
    RoundUnique(degrees / SectorDegrees, k);
  }

  /** 0 and 360 degrees are both north. */
  lemma {:induction false} WindNorth()
    ensures WindDirection(0.0) == Some("С")
    ensures WindDirection(360.0) == Some("С")
  {
    WindSector(0.0, 0);
    WindSector(360.0, 8);
  }

  /** A full turn does not change the compass point of a non-negative bearing. */
  lemma {:induction false} WindFullTurn(degrees: real)
    requires degrees >= 0.0
    ensures WindDirection(degrees + 360.0) == WindDirection(degrees)
  {
    var q := degrees / SectorDegrees;
    assert (degrees + 360.0) / SectorDegrees == q + 8 as real;
    RoundShift(q, 8);
    var n := Round(q);
    assert 0 <= n;
    assert (n + 8) % 8 == n % 8;
  }

  /**
   * `getWindDirection` yields `undefined` exactly when the rounded sector
   * number is negative and not a multiple of 8; in particular for every
   * bearing from -337.5 up to, but not including, -22.5.
   */
  lemma {:induction false} WindDirectionUndefined(degrees: real)
    ensures WindDirection(degrees).None? <==>
              Round(degrees / SectorDegrees) < 0 && Round(degrees / SectorDegrees) % 8 != 0
    ensures -337.5 <= degrees < -22.5 ==> WindDirection(degrees).None?
  {
    var n := Round(degrees / SectorDegrees);
    if n < 0 {
      assert TruncRem(n, 8) == -((-n) % 8);
      assert (-n) % 8 == 0 <==> n % 8 == 0;
    }
  }

  /** The factor that converts hPa to mmHg. */
  const MmHgPerHpa: real := 0.750062

  /** `Math.round(pressure * 0.750062)`: the pressure in mmHg nearest to the exact conversion. */
  function PressureMmHg(hpa: real): (mm: int)
    ensures RoundsTo(hpa * MmHgPerHpa, mm)
  {
    Round(hpa * MmHgPerHpa)
  }

  /** A higher pressure never converts to a lower one. */
  lemma {:induction false} PressureMonotone(a: real, b: real)
    requires a <= b
    ensures PressureMmHg(a) <= PressureMmHg(b)
  {
    RoundMonotone(a * MmHgPerHpa, b * MmHgPerHpa);
  }

  /** Standard sea-level pressure, 1013 hPa, shows as 760 mmHg. */
  lemma {:induction false} PressureSeaLevel()
    ensures PressureMmHg(1013.0) == 760
  {
    RoundUnique(1013.0 * MmHgPerHpa, 760);
  }

  datatype Temperatures = Temperatures(current: int, feelsLike: int, min: int, max: int)

  /** `pressure` is in mmHg; `windDirection` is `None` where the source shows `undefined`. */
  datatype Details = Details(humidity: int, pressure: int, windDirection: Option<string>, clouds: int)

  /** The view model of the current weather; the three times are in milliseconds since the epoch. */
  datatype CurrentView = CurrentView(
    location: Location,
    temperature: Temperatures,
    conditions: WeatherEntry,
    details: Details,
    sunriseMillis: int,
    sunsetMillis: int,
    timestampMillis: int)

  /**
   * `formatCurrentWeather(data, location)`. On an empty `data.weather`,
   * `weather[0]` is `undefined` and reading its `.main` throws a TypeError:
   * the result is then `None`.
   */
  function FormatCurrentWeather(data: CurrentResponse, location: Location): (r: Option<CurrentView>)
    ensures r.Some? <==> |data.weather| > 0
    ensures r.Some? ==> r.value.location == location && r.value.conditions == data.weather[0]
    ensures r.Some? ==>
              var t := r.value.temperature;
              && RoundsTo(data.main.temp, t.current)
              && RoundsTo(data.main.feelsLike, t.feelsLike)
              && RoundsTo(data.main.tempMin, t.min)
              && RoundsTo(data.main.tempMax, t.max)
    ensures r.Some? ==>
              var d := r.value.details;
              && d.humidity == data.main.humidity
              && RoundsTo(data.main.pressure * MmHgPerHpa, d.pressure)
              && d.windDirection == WindDirection(data.windDeg)
              && d.clouds == data.clouds
    ensures r.Some? ==>
              && r.value.sunriseMillis == data.sunrise * 1000
              && r.value.sunsetMillis == data.sunset * 1000
              && r.value.timestampMillis == data.dt * 1000
  {
    if |data.weather| == 0 then None
    else
      Some(CurrentView(
        location,
        Temperatures(
          Round(data.main.temp),
          Round(data.main.feelsLike),
          Round(data.main.tempMin),
          Round(data.main.tempMax)),
        data.weather[0],
        Details(
          data.main.humidity,
          PressureMmHg(data.main.pressure),
          WindDirection(data.windDeg),
          data.clouds),
        data.sunrise * 1000,
        data.sunset * 1000,
        data.dt * 1000))
  }

  /**
   * Rounding keeps the reported range in order: a current temperature between
   * the minimum and the maximum stays between them after rounding.
   */
  lemma {:induction false} CurrentWithinRange(data: CurrentResponse, location: Location)
    requires |data.weather| > 0
    requires data.main.tempMin <= data.main.temp <= data.main.tempMax
    ensures var t := FormatCurrentWeather(data, location).value.temperature;
            t.min <= t.current <= t.max
  {
    RoundMonotone(data.main.tempMin, data.main.temp);
    RoundMonotone(data.main.temp, data.main.tempMax);
  }
}
