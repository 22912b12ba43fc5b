/**
 * The decisions the page makes while showing a reading: the pressure and
 * visibility labels, the background and its particles, the age of a history
 * entry, the search-box guard and the rounded figures.
 */
module Display {
  import opened Wrappers
  import opened Text
  import opened Weather
  import Insights

  // ---------------------------------------------------------------------------
  // Pressure and visibility labels.
  // ---------------------------------------------------------------------------

  datatype PressureStatus = LowPressure | NormalPressure | HighPressure {
    /** The label the pressure indicator shows. */
    function Label(): string {
      match this
      case LowPressure => "Low"
      case NormalPressure => "Normal"
      case HighPressure => "High"
    }

    /** The place of the status on the scale from low to high. */
    function Rank(): nat {
      match this
      case LowPressure => 0
      case NormalPressure => 1
      case HighPressure => 2
    }
  }

  /** `updatePressureIndicator`: low below 1000 hPa, high above 1020, normal on 1000..1020. */
  function PressureStatusOf(pressure: int): (s: PressureStatus)
    ensures s == LowPressure <==> pressure < 1000
    ensures s == HighPressure <==> pressure > 1020
    ensures s == NormalPressure <==> 1000 <= pressure <= 1020
  {
    if pressure < 1000 then LowPressure
    else if pressure > 1020 then HighPressure
    else NormalPressure
  }

  /** A higher pressure never gets a lower label. */
  lemma PressureStatusMonotone(a: int, b: int)
    requires a <= b
    ensures PressureStatusOf(a).Rank() <= PressureStatusOf(b).Rank()
  {
  }

  datatype VisibilityStatus = Poor | Moderate | Good {
    /** The label the visibility status shows. */
    function Label(): string {
      match this
      case Poor => "Poor"
      case Moderate => "Moderate"
      case Good => "Good"
    }

    function Rank(): nat {
      match this
      case Poor => 0
      case Moderate => 1
      case Good => 2
    }
  }

  /** `updateVisibilityStatus`: poor below 1000 m, moderate below 5000 m, good from 5000 m. */
  function VisibilityStatusOf(visibility: int): (s: VisibilityStatus)
    ensures s == Poor <==> visibility < 1000
    ensures s == Moderate <==> 1000 <= visibility < 5000
    ensures s == Good <==> visibility >= 5000
  {
    if visibility < 1000 then Poor
    else if visibility < 5000 then Moderate
    else Good
  }

  /** A longer visibility never gets a worse label. */
  lemma VisibilityStatusMonotone(a: int, b: int)
    requires a <= b
    ensures VisibilityStatusOf(a).Rank() <= VisibilityStatusOf(b).Rank()
  {
  }

  /** The page shows "Poor" visibility exactly when the insights warn of poor visibility. */
  lemma PoorVisibilityAgrees(w: Reading)
    ensures VisibilityStatusOf(w.visibility) == Poor <==> Insights.PoorVisibility in Insights.FiredRules(w)
  {
    Insights.FiredAdvisory(Insights.PoorVisibility, w);
  }

  // ---------------------------------------------------------------------------
  // The background.
  // ---------------------------------------------------------------------------

  /** The backgrounds `updateBackground` chooses between; `Plain` adds no class. */
  datatype Scene = Clear | Clouds | Rain | Snow | Thunderstorm | Mist | Plain

  /**
   * The first match over the lower-cased condition, in the order clear, cloud,
   * rain or drizzle, snow, thunderstorm, mist or fog.
   */
  function SceneOf(condition: string): (s: Scene)
    ensures s == Clear <==> Contains(condition, "clear")
    ensures s == Clouds <==> !Contains(condition, "clear") && Contains(condition, "cloud")
    ensures s == Rain <==> (!Contains(condition, "clear") && !Contains(condition, "cloud")
      && (Contains(condition, "rain") || Contains(condition, "drizzle")))
    ensures s == Snow <==> (!Contains(condition, "clear") && !Contains(condition, "cloud")
      && !Contains(condition, "rain") && !Contains(condition, "drizzle")
      && Contains(condition, "snow"))
    ensures s == Thunderstorm <==> (!Contains(condition, "clear") && !Contains(condition, "cloud")
      && !Contains(condition, "rain") && !Contains(condition, "drizzle")
      && !Contains(condition, "snow") && Contains(condition, "thunderstorm"))
    ensures s == Mist <==> (!Contains(condition, "clear") && !Contains(condition, "cloud")
      && !Contains(condition, "rain") && !Contains(condition, "drizzle")
      && !Contains(condition, "snow") && !Contains(condition, "thunderstorm")
      && (Contains(condition, "mist") || Contains(condition, "fog")))
    ensures s == Plain <==> (!Contains(condition, "clear") && !Contains(condition, "cloud")
      && !Contains(condition, "rain") && !Contains(condition, "drizzle")
      && !Contains(condition, "snow") && !Contains(condition, "thunderstorm")
      && !Contains(condition, "mist") && !Contains(condition, "fog"))
  {
    if Contains(condition, "clear") then Clear
    else if Contains(condition, "cloud") then Clouds
    else if Contains(condition, "rain") || Contains(condition, "drizzle") then Rain
    else if Contains(condition, "snow") then Snow
    else if Contains(condition, "thunderstorm") then Thunderstorm
    else if Contains(condition, "mist") || Contains(condition, "fog") then Mist
    else Plain
  }

  /** The class a scene adds to `bg-gradient`, if any. */
  function SceneClass(s: Scene): (c: Option<string>)
    ensures c.None? <==> s == Plain
  {
    match s
    case Clear => Some("bg-clear")
    case Clouds => Some("bg-clouds")
    case Rain => Some("bg-rain")
    case Snow => Some("bg-snow")
    case Thunderstorm => Some("bg-thunderstorm")
    case Mist => Some("bg-mist")
    case Plain => None
  }

  /** One animated element of the particle layer. */
  datatype Particle = RainDrop | SnowFlake

  /** `n` copies of `p`. */
  function Repeat(p: Particle, n: nat): (r: seq<Particle>)
    ensures |r| == n
    ensures forall i | 0 <= i < n :: r[i] == p
  {
    if n == 0 then [] else Repeat(p, n - 1) + [p]
  }

  /**
   * The particles a scene shows: fifty drops for rain and thunderstorms,
   * thirty flakes for snow, and none otherwise, all of one kind.
   */
  function SceneParticles(s: Scene): (ps: seq<Particle>)
    ensures |ps| == 50 <==> s == Rain || s == Thunderstorm
    ensures |ps| == 30 <==> s == Snow
    ensures |ps| == 0 <==> s !in {Rain, Thunderstorm, Snow}
    ensures forall i | 0 <= i < |ps| :: ps[i] == (if s == Snow then SnowFlake else RainDrop)
  {
    match s
    case Rain => Repeat(RainDrop, 50)
    case Thunderstorm => Repeat(RainDrop, 50)
    case Snow => Repeat(SnowFlake, 30)
    case _ => []
  }

  /** The background element: its class list and the contents of its particle layer. */
  class Backdrop {
    var classes: seq<string>
    var particles: seq<Particle>

    constructor()
      ensures classes == ["bg-gradient"] && particles == []
    {
      classes := ["bg-gradient"];
      particles := [];
    }

    /** `createRainEffect`: appends fifty drops. */
    method CreateRainEffect()
      modifies this
      ensures classes == old(classes)
      ensures particles == old(particles) + Repeat(RainDrop, 50)
    {
      for i := 0 to 50
        invariant classes == old(classes)
        invariant particles == old(particles) + Repeat(RainDrop, i)
      {
        particles := particles + [RainDrop];
      }
    }

    /** `createSnowEffect`: appends thirty flakes. */
    method CreateSnowEffect()
      modifies this
      ensures classes == old(classes)
      ensures particles == old(particles) + Repeat(SnowFlake, 30)
    {
      for i := 0 to 30
        invariant classes == old(classes)
        invariant particles == old(particles) + Repeat(SnowFlake, i)
      {
        particles := particles + [SnowFlake];
      }
    }

    /**
     * `updateBackground`: reset the class list to `bg-gradient` and empty the
     * particle layer, then add the class and particles of the matching scene.
     * Nothing of the previous state survives.
     */
    method UpdateBackground(condition: string)
      modifies this
      ensures classes == ["bg-gradient"] + SceneClass(SceneOf(Lower(condition))).ToSeq()
      ensures particles == SceneParticles(SceneOf(Lower(condition)))
    {
      classes := ["bg-gradient"];
      particles := [];
      var main := Lower(condition);
      if Contains(main, "clear") {
        classes := classes + ["bg-clear"];
      } else if Contains(main, "cloud") {
        classes := classes + ["bg-clouds"];
      } else if Contains(main, "rain") || Contains(main, "drizzle") {
        classes := classes + ["bg-rain"];
        CreateRainEffect();
      } else if Contains(main, "snow") {
        classes := classes + ["bg-snow"];
        CreateSnowEffect();
      } else if Contains(main, "thunderstorm") {
        classes := classes + ["bg-thunderstorm"];
        CreateRainEffect();
      } else if Contains(main, "mist") || Contains(main, "fog") {
        classes := classes + ["bg-mist"];
      }
    }
  }

  /** At most one weather class joins `bg-gradient`, and none when no word matches. */
  lemma BackgroundClasses(condition: string)
    ensures var cs := ["bg-gradient"] + SceneClass(SceneOf(condition)).ToSeq();
      1 <= |cs| <= 2 && cs[0] == "bg-gradient"
      && (|cs| == 1 <==> SceneOf(condition) == Plain)
  {
  }

  // ---------------------------------------------------------------------------
  // The age of a history entry.
  // ---------------------------------------------------------------------------

  /** The buckets `formatHistoryDate` sorts an age into. */
  datatype Age = JustNow | MinutesAgo(minutes: int) | HoursAgo(hours: int) | DaysAgo(days: int) | OnDate

  const Minute := 60000
  const Hour := 3600000
  const Day := 86400000

  /**
   * `formatHistoryDate` on the milliseconds elapsed since the entry's timestamp,
   * `None` when the timestamp does not parse (every comparison with NaN fails,
   * so the calendar date is shown). Minutes, hours and days are rounded down.
   */
  function FormatHistoryDate(elapsed: Option<int>): (a: Age)
    ensures a == JustNow <==> elapsed.Some? && elapsed.value < Minute
    ensures a.MinutesAgo? <==> elapsed.Some? && Minute <= elapsed.value < Hour
    ensures a.MinutesAgo? ==> (1 <= a.minutes <= 59
      && a.minutes * Minute <= elapsed.value < (a.minutes + 1) * Minute)
    ensures a.HoursAgo? <==> elapsed.Some? && Hour <= elapsed.value < Day
    ensures a.HoursAgo? ==> (1 <= a.hours <= 23
      && a.hours * Hour <= elapsed.value < (a.hours + 1) * Hour)
    ensures a.DaysAgo? <==> elapsed.Some? && Day <= elapsed.value < 7 * Day
    ensures a.DaysAgo? ==> (1 <= a.days <= 6
      && a.days * Day <= elapsed.value < (a.days + 1) * Day)
    ensures a == OnDate <==> elapsed.None? || elapsed.value >= 7 * Day
  {
    match elapsed
    case None => OnDate
    case Some(diff) =>
      var minutes := diff / Minute;
      var hours := diff / Hour;
      var days := diff / Day;
      if minutes < 1 then JustNow
      else if minutes < 60 then MinutesAgo(minutes)
      else if hours < 24 then HoursAgo(hours)
      else if days < 7 then DaysAgo(days)
      else OnDate
  }

  /** An older entry never shows a younger age. */
  lemma FormatHistoryDateMonotone(a: int, b: int)
    requires a <= b
    ensures AgeRank(FormatHistoryDate(Some(a))) <= AgeRank(FormatHistoryDate(Some(b)))
  {
  }

  /** The order of the buckets from youngest to oldest, counting the unit inside each. */
  function AgeRank(a: Age): int {
    match a
    case JustNow => 0
    case MinutesAgo(m) => m
    case HoursAgo(h) => 60 + h
    case DaysAgo(d) => 84 + d
    case OnDate => 91
  }

  // ---------------------------------------------------------------------------
  // The search box.
  // ---------------------------------------------------------------------------

  /** What pressing search does. */
  datatype SearchAction = ShowError(message: string) | FetchCity(city: string)

  /**
   * `searchWeather`: an input that is empty after trimming shows an error and
   * fetches nothing; anything else fetches the trimmed name.
   */
  function SearchWeather(input: string): (a: SearchAction)
    ensures a.ShowError? <==> AllSpace(input)
    ensures a.ShowError? ==> a.message == "Please enter a city name"
    ensures a.FetchCity? ==> (a.city == Trim(input) && a.city != []
      && !IsSpace(a.city[0]) && !IsSpace(a.city[|a.city| - 1]))
  {
    var city := Trim(input);
    if city == [] then ShowError("Please enter a city name") else FetchCity(city)
  }

  // ---------------------------------------------------------------------------
  // The rounded figures.
  // ---------------------------------------------------------------------------

  /** The numbers `displayWeather` writes into the page. */
  datatype Readout = Readout(
    temp: int, feelsLike: int, tempMin: int, tempMax: int, windKmh: int,
    humidity: int, pressure: int, pressureStatus: PressureStatus, visibilityStatus: VisibilityStatus)

  /**
   * `displayWeather`: temperatures rounded to whole degrees, the wind converted
   * to km/h and rounded, humidity and pressure as sent, and the two labels.
   */
  function ReadoutOf(w: Reading): (r: Readout)
    ensures w.temp - 0.5 < r.temp as real <= w.temp + 0.5
    ensures w.feelsLike - 0.5 < r.feelsLike as real <= w.feelsLike + 0.5
    ensures w.tempMin - 0.5 < r.tempMin as real <= w.tempMin + 0.5
    ensures w.tempMax - 0.5 < r.tempMax as real <= w.tempMax + 0.5
    ensures WindKmh(w) - 0.5 < r.windKmh as real <= WindKmh(w) + 0.5
    ensures r.humidity == w.humidity && r.pressure == w.pressure
    ensures r.pressureStatus == PressureStatusOf(w.pressure)
    ensures r.visibilityStatus == VisibilityStatusOf(w.visibility)
    ensures r.pressureStatus.Label() == "Low" <==> w.pressure < 1000
    ensures r.pressureStatus.Label() == "High" <==> w.pressure > 1020
    ensures r.pressureStatus.Label() == "Normal" <==> 1000 <= w.pressure <= 1020
    ensures r.visibilityStatus.Label() == "Poor" <==> w.visibility < 1000
    ensures r.visibilityStatus.Label() == "Moderate" <==> 1000 <= w.visibility < 5000
    ensures r.visibilityStatus.Label() == "Good" <==> w.visibility >= 5000
  {
    Readout(
      Round(w.temp), Round(w.feelsLike), Round(w.tempMin), Round(w.tempMax),
      Round(w.windSpeed * 3.6), w.humidity, w.pressure,
      PressureStatusOf(w.pressure), VisibilityStatusOf(w.visibility))
  }
}
