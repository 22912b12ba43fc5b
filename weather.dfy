/** The weather reading that the provider returns and every component reads. */
module Weather {

  /**
   * One answer of the weather provider, reduced to the fields the core reads:
   * temperatures in degrees Celsius, humidity in percent, pressure in hPa,
   * wind speed in m/s and visibility in metres. `condition` is the primary
   * condition category (`weather[0].main`, such as "Rain" or "Clear") as sent.
   */
  datatype Reading = Reading(
    name: string,
    country: string,
    temp: real,
    feelsLike: real,
    tempMin: real,
    tempMax: real,
    humidity: int,
    pressure: int,
    condition: string,
    windSpeed: real,
    visibility: int)

  /** Wind speed converted from m/s to km/h. */
  function WindKmh(w: Reading): real {
    w.windSpeed * 3.6
  }

  /**
   * `Math.round`: the integer nearest to `x`, a half going up (towards +infinity),
   * so that exactly one integer satisfies the contract.
   */
  function Round(x: real): (n: int)
    ensures x - 0.5 < n as real <= x + 0.5
  {
    (x + 0.5).Floor
  }
}
