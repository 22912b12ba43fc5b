# Weather dashboard core, modelled in Dafny

The weather dashboard looks up the current weather for a city, or for a pair of
coordinates, through a small backend. The backend remembers the last ten places
searched. The page shows the reading, a background that matches the weather
and a list of advice derived from the reading, and this project models the
logic behind those three.

- **Insights** (`insights.dfy`) models the rules engine, `generateInsights`.
  It turns a reading into an ordered list of advisory records (icon, title,
  message). The sections run in a fixed order:
  - the temperature ladder;
  - the independent rain, snow and thunderstorm checks on the lower-cased condition;
  - the humidity ladder;
  - wind in km/h;
  - visibility;
  - the first-match clothing and activity tips;
  - a fallback record when nothing else fired.

  `getRiskLevel` is modelled in the same file. Each advisory is a `Rule`, and
  `Present` is the exact record the engine emits for it. The engine works by
  pushing onto a list, so it is modelled as a `method` built from one small
  method per source section. The method is proved equal to `Render(FiredRules(w))`.
  `FiredRules` is the specification function. It is connected to an
  independent, band-by-band table of when each rule fires (`Triggers` and
  `Fires`).
- **History** (`history.dfy`) models the backend's search ledger:
  - `saveToHistory`: drop the same city in any casing, put the new entry in
    front, keep ten;
  - the tolerant history read;
  - the clear route;
  - the two weather routes that record a search.

  The history file is a `Ledger` object. Its `store` says whether the file is
  missing, unreadable or readable, and `searches` holds the stored list. The
  methods update both fields in place.
- **Display** (`display.dfy`) models the page's decisions:
  - the pressure and visibility labels;
  - the background (a `Backdrop` object whose class list and particle layer
    `updateBackground` resets and refills, with loops that add fifty rain drops
    or thirty snow flakes);
  - the age label of a history entry;
  - the empty-search guard;
  - the rounding of the displayed figures.
- **Text**, **Weather** and **Wrappers** hold the shared pieces:
  - `toLowerCase`, `includes` and `trim`;
  - the reading and `Math.round`;
  - `Option`.

A 32-degree rainy reading gets the light-clothing tip, because the clothing
ladder tests `temp > 30` (insights.js:135) before it looks for rain
(insights.js:147). `Insights.HotRainyScenario` proves the list the code produces.

The model also proves that "drizzle" is treated unevenly:
- it raises the rain advisory;
- the clothing, activity and risk checks look only for "rain", so drizzle gets
  casual wear and may be low risk.

See `Insights.DrizzleIsNotRainForClothing` and `Insights.DrizzleIsLowRisk`.
Both follow the code as written.

## Model

| member | source | states |
|---|---|---|
| Text.Lower | frontend/js/insights.js:12 | same length; every character is lower-cased one by one (the capitals of ASCII, Latin-1, Greek and Cyrillic; anything else kept) |
| Text.Contains | frontend/js/insights.js:50 | `includes`: a left-to-right scan over the start positions; `Text.ContainsIff` ties it to the substring definition |
| Text.LowerIdempotent | frontend/js/insights.js:12 | lower-casing an already lower-cased string changes nothing |
| Text.ContainsIff | frontend/js/insights.js:50 | the left-to-right `includes` scan holds exactly when some start index holds the pattern |
| Text.Trim | frontend/js/app.js:92 | the result sits in the input between two runs of ECMAScript white space; it is empty exactly when the input is all white space, otherwise it starts and ends with a non-space character |
| Text.TrimIdempotent | frontend/js/app.js:92 | trimming twice is trimming once |
| Weather.WindKmh | frontend/js/insights.js:14 | the wind speed converted from m/s to km/h by the factor 3.6; the wind advisory, the risk level and the readout all use this one conversion |
| Weather.Round | frontend/js/app.js:147 | `Math.round`: the unique integer within half a unit, halves going up |
| Insights.Present | frontend/js/insights.js:18-127 | the record a rule emits: its icon, title and message |
| Insights.Icon | frontend/js/insights.js:18-127 | the icon of each of the twenty records; `Insights.RuleOfIconRoundTrip` shows it identifies the rule |
| Insights.Title | frontend/js/insights.js:18-127 | the title of each of the twenty records |
| Insights.Message | frontend/js/insights.js:18-127 | the message of each of the twenty records |
| Insights.RuleOfIconRoundTrip | frontend/js/insights.js:17-128 | every emitted icon identifies its rule |
| Insights.PresentInjective | frontend/js/insights.js:17-128 | distinct rules emit distinct records |
| Insights.TemperatureAdvisory | frontend/js/insights.js:16-47 | first match: extreme heat iff t > 35, hot iff 30 < t <= 35, freezing iff t < 0, cold iff 0 <= t < 10, perfect iff 20 <= t <= 25, none otherwise; always a temperature rule |
| Insights.RainAdvisory | frontend/js/insights.js:49-56 | the rain record iff the condition contains "rain" or "drizzle" |
| Insights.SnowAdvisory | frontend/js/insights.js:58-65 | the snow record iff the condition contains "snow" |
| Insights.ThunderstormAdvisory | frontend/js/insights.js:67-74 | the thunderstorm record iff the condition contains "thunderstorm" |
| Insights.HumidityAdvisory | frontend/js/insights.js:76-89 | high iff humidity > 80, low iff humidity < 30, none on 30..80 |
| Insights.WindAdvisory | frontend/js/insights.js:91-98 | strong winds iff the speed in km/h is above 40 |
| Insights.VisibilityAdvisory | frontend/js/insights.js:100-107 | poor visibility iff below 1000 m |
| Insights.ClothingRecommendation | frontend/js/insights.js:134-161 | first match: light clothes iff t > 30, layers iff t < 10, waterproof iff 10 <= t <= 30 and "rain", casual iff 15 <= t <= 25 without "rain", none otherwise |
| Insights.ActivitySuggestion | frontend/js/insights.js:164-185 | first match: outdoor iff 20 <= t <= 28 without "rain", indoor iff "rain", beat the heat iff t > 32 without "rain", none otherwise |
| Insights.Render | frontend/js/insights.js:10-130 | one record per rule, in the same order, each the rule's fixed record |
| Insights.RenderedMembership | frontend/js/insights.js:10-130 | a record is rendered exactly when its rule is in the list |
| Insights.Records | frontend/js/insights.js:110-119 | a section contributes no record, or the one record of its tip |
| Insights.SectionExact | frontend/js/insights.js:16-119 | each section yields at most one rule: one of its own group, exactly when that rule triggers |
| Insights.AdvisoriesExact | frontend/js/insights.js:16-119 | an advisory is listed exactly when its band-by-band trigger holds |
| Insights.FiredRules | frontend/js/insights.js:10-130 | the rules the engine fires: the advisories section by section, or the fallback alone; its meaning is given by `Insights.FiredRulesExact`, `Insights.FiredRulesGrouped` and `Insights.FallbackAlone` |
| Insights.FiredRulesExact | frontend/js/insights.js:10-130 | the result lists exactly the rules that fire: the triggered advisories, and the fallback exactly when none triggered |
| Insights.FiredAdvisory | frontend/js/insights.js:16-119 | an advisory other than the fallback is in the result exactly when it triggers |
| Insights.FallbackAlone | frontend/js/insights.js:122-128 | the fallback appears only alone, and exactly on a quiet reading |
| Insights.FiredRulesCount | frontend/js/insights.js:10-130 | the result holds between one and nine rules |
| Insights.RenderedBySection | frontend/js/insights.js:10-130 | rendering the fired rules equals appending each section's records and then the fallback when the list is empty |
| Insights.GeneratedRecords | frontend/js/insights.js:10-130 | the section records with the fallback are the rendered fired rules: one to nine records, each present exactly when its rule fires |
| Insights.RenderedFiredRules | frontend/js/insights.js:10-130 | between one and nine records, and a rule's record is present exactly when the rule fires |
| Insights.ChainedGrouped | frontend/js/insights.js:16-119 | groups that rise from each record to the next rise between any two records |
| Insights.FiredRulesGrouped | frontend/js/insights.js:16-128 | at most one rule per group, in the order temperature, rain, snow, thunderstorm, humidity, wind, visibility, clothing, activity |
| Insights.QuietBands | frontend/js/insights.js:122-128 | the fallback fires exactly for a reading with all of: t in [10, 15) or (28, 30]; none of rain, drizzle, snow or thunderstorm; humidity 30..80; wind at most 40 km/h; visibility of at least 1000 m |
| Insights.HeatBoundary | frontend/js/insights.js:17-23 | exactly 35 degrees is hot weather, not extreme heat; above 35 it is the reverse |
| Insights.TemperatureGaps | frontend/js/insights.js:16-47 | between 10 and 20 and between 25 and 30 no temperature rule is emitted |
| Insights.ConditionChecksIndependent | frontend/js/insights.js:49-74 | the three condition rules each fire exactly on their own words, independently |
| Insights.DrizzleHasNoRain | frontend/js/insights.js:147 | "drizzle" does not contain "rain" |
| Insights.DrizzleIsNotRainForClothing | frontend/js/insights.js:147-158 | at 20 degrees, drizzle gets casual wear, not the waterproof tip |
| Insights.HotRainyScenario | frontend/js/insights.js:10-130 | 32 degrees, "Rain", humidity 85, 2 m/s, 500 m give exactly hot, rainy, high humidity, poor visibility, light clothing, indoor, in that order |
| Insights.RiskLevel | frontend/js/insights.js:188-199 | high iff t > 38, t < -5, thunderstorm or wind > 50 km/h; medium iff not high and (t > 33, t < 5, rain or wind > 35 km/h); low iff neither |
| Insights.ThunderstormMeansHighRisk | frontend/js/insights.js:193 | a thunderstorm warning in the result means high risk |
| Insights.SevereAdvisoryMeansRisk | frontend/js/insights.js:193-197 | extreme heat, freezing, strong winds or the indoor tip in the result rule out low risk |
| Insights.DrizzleIsLowRisk | frontend/js/insights.js:195 | a mild drizzly reading gets the rain advisory yet low risk |
| Insights.PushTemperatureInsight | frontend/js/insights.js:16-47 | appends exactly the records of the temperature ladder |
| Insights.PushRainInsight | frontend/js/insights.js:49-56 | appends exactly the rain section's records |
| Insights.PushSnowInsight | frontend/js/insights.js:58-65 | appends exactly the snow section's records |
| Insights.PushThunderstormInsight | frontend/js/insights.js:67-74 | appends exactly the thunderstorm section's records |
| Insights.PushHumidityInsight | frontend/js/insights.js:76-89 | appends exactly the humidity ladder's records |
| Insights.PushWindInsight | frontend/js/insights.js:91-98 | appends exactly the wind section's records |
| Insights.PushVisibilityInsight | frontend/js/insights.js:100-107 | appends exactly the visibility section's records |
| Insights.PushTip | frontend/js/insights.js:109-119 | appends the tip's record when there is a tip |
| Insights.GenerateInsights | frontend/js/insights.js:9-131 | returns the rendered fired rules: one to nine records, each present exactly when its rule fires |
| History.NewEntry | backend/server.js:125-131 | the entry keeps the city as given, the country and the condition, is stamped with the search time, and rounds the temperature |
| History.RemoveCity | backend/server.js:134 | keeps exactly the entries whose city differs after lower-casing, never more entries |
| History.RemoveCityConcat | backend/server.js:134 | the filter keeps order: it distributes over concatenation |
| History.RemoveCityNoMatch | backend/server.js:134 | a list with no matching city is unchanged |
| History.RemoveCityAgree | backend/server.js:134 | two spellings of a city that agree in lower case filter alike |
| History.Recorded | backend/server.js:133-140 | the list after a search: one to ten entries, the new entry first, and behind it only old entries of other cities |
| History.RecordedShape | backend/server.js:133-140 | one to ten entries: the new entry first, then the other cities in their old order, cut to nine |
| History.RecordedDropsDuplicates | backend/server.js:133-137 | no entry behind the new one has its city, in any casing |
| History.RemoveCityUnique | backend/server.js:134 | filtering keeps a list with one entry per city as such |
| History.RecordedKeepsUnique | backend/server.js:133-140 | each search keeps the ledger at one entry per city |
| History.MostRecentWins | backend/server.js:133-140 | recording a city twice gives the ledger that the second search alone gives |
| History.RecordAllDistinct | backend/server.js:136-140 | searching distinct cities from nothing keeps the last ten, most recent first |
| History.TwiceFromEmpty | backend/server.js:133-140 | two searches of matching names from an empty ledger leave one entry, the later one |
| History.TokyoTwice | backend/server.js:134 | "Tokyo" and then "TOKYO" leave one entry, the later one |
| History.ZurichTwice | backend/server.js:134 | "Zürich" and then "ZÜRICH" leave one entry, the later one |
| History.Ledger.History | backend/server.js:91-98 | the stored list when the file is readable, an empty list when it is missing or does not parse |
| History.Ledger.Record | backend/server.js:115-148 | an unreadable file, or a write refused at opening, leaves the file unchanged; a write that fails after opening leaves the file unreadable; a completed write leaves it readable, holding the recorded list |
| History.Ledger.Clear | backend/server.js:103-110 | a completed write empties the list and answers 200 "History cleared"; a failed write answers 500 "Failed to clear history" and leaves the file unchanged when refused at opening, unreadable when interrupted |
| History.WeatherByCity | backend/server.js:33-58 | a found reading is returned and recorded under the city as typed; any non-OK answer of the provider gives 404 "City not found" and a failure 500 "Server error", both leaving the history unchanged; the file ends as `Ledger.Record` leaves it |
| History.WeatherByCoordinates | backend/server.js:63-86 | like the city route, but recorded under the place name the provider returned; any non-OK answer gives 404 "Location not found" |
| Display.PressureStatusOf | frontend/js/app.js:183-197 | low iff below 1000 hPa, high iff above 1020, normal on 1000..1020 |
| Display.PressureStatusMonotone | frontend/js/app.js:183-197 | a higher pressure never gets a lower label |
| Display.VisibilityStatusOf | frontend/js/app.js:200-214 | poor iff below 1000 m, moderate on 1000..4999, good from 5000 |
| Display.VisibilityStatusMonotone | frontend/js/app.js:200-214 | a longer visibility never gets a worse label |
| Display.PoorVisibilityAgrees | frontend/js/app.js:201 | the page shows "Poor" exactly when the insights warn of poor visibility |
| Display.SceneOf | frontend/js/app.js:222-239 | first match in the order clear, cloud, rain or drizzle, snow, thunderstorm, mist or fog: each scene exactly when its word matches and no earlier one does, no scene exactly when no word matches |
| Display.SceneClass | frontend/js/app.js:224-238 | the class each scene adds; the plain scene, and only it, adds none |
| Display.SceneParticles | frontend/js/app.js:228-236 | fifty drops exactly for the rain and thunderstorm scenes, thirty flakes exactly for snow, none otherwise, all of one kind |
| Display.BackgroundClasses | frontend/js/app.js:219-239 | `bg-gradient` first and at most one more class, none exactly when no word matches |
| Display.Backdrop.CreateRainEffect | frontend/js/app.js:243-254 | appends exactly fifty rain drops and leaves the classes alone |
| Display.Backdrop.CreateSnowEffect | frontend/js/app.js:257-268 | appends exactly thirty snow flakes and leaves the classes alone |
| Display.Backdrop.UpdateBackground | frontend/js/app.js:217-240 | the classes become `bg-gradient` plus the scene's class, and the particles become the scene's, whatever was there before |
| Display.FormatHistoryDate | frontend/js/app.js:324-337 | just now under a minute (and for a future timestamp); n minutes for 1..59 with n whole minutes elapsed; n hours for 1..23; n days for 1..6; the calendar date from seven days, or when the timestamp does not parse |
| Display.FormatHistoryDateMonotone | frontend/js/app.js:328-336 | an older entry never shows a younger age |
| Display.SearchWeather | frontend/js/app.js:91-100 | an input that is all white space shows "Please enter a city name"; anything else fetches the trimmed name, which starts and ends with a non-space character |
| Display.ReadoutOf | frontend/js/app.js:147-170 | the temperatures and the wind in km/h are shown rounded, humidity and pressure as sent, with the two statuses; the texts "Low", "High" and "Normal" and "Poor", "Moderate" and "Good" are each shown exactly on their band |

## Left out

- The network is not modelled: the weather provider, its URL and key, and `fetch`. The provider's answer is a parameter of the routes: a reading, a non-OK answer, or a failure. `History.Lookup.NotFound` stands for every non-OK answer: an unknown place, but also a rejected key (401) or a rate limit (429), which the routes all report as 404.
- The file system and JSON are abstracted: the history file is missing, unreadable or readable. A readable file whose JSON has no `searches` list is not distinguished: the source's record step throws and is swallowed there, and the read route returns that JSON as it is.
- Logging (`console.error`), the server start-up (`app.listen`, CORS, the static files) and the module imports are left out.
- Two requests that interleave their read-modify-write of the history file are not modelled; the model runs requests one at a time.
- Clocks are parameters: the timestamp of a new entry is an argument, and so are the milliseconds elapsed since an entry's timestamp.
- Display.FormatHistoryDate: returns the bucket and its count (`MinutesAgo(5)`) rather than the text "5m ago", and the calendar date of `toLocaleDateString` is not produced.
- Display.Backdrop.UpdateBackground: particles are modelled by kind and number only; their random positions, sizes and delays (`Math.random`) are left out.
- The page's other output is not modelled: `textContent`, colours, `innerHTML` templates, the humidity gauge, the wind arrow, the icon URL, and the visibility in km written with `toFixed(1)`.
- `formatDate`, geolocation, loading and error display, history loading, `theme.js` and `weather.js` are not part of this model.
- Text.Lower: lower-cases the capitals of ASCII, Latin-1 (À to Þ), Greek (Α to Ω) and Cyrillic (Ѐ to Я) only. JavaScript's `toLowerCase` covers all of Unicode, including letters that map to two characters (İ) and the word-final sigma: a Σ with a cased letter before it and none after it becomes ς, where `Text.Lower` always gives σ. The conditions the provider sends are ASCII words; city names are not.
- History.RemoveCity: two city names that differ only in capitals outside the ranges `Text.Lower` covers (Latin Extended, Armenian, and so on) are kept as two cities, where the backend keeps one. A word-final Σ also differs: "ΑΣ" and "ας" are kept as two cities where the backend keeps one, and "ΟΔΟΣ" and "οδοσ" are merged where the backend keeps two.
- Numbers are mathematical: temperatures and wind are `real` and the other fields `int`. IEEE rounding error, `NaN`, and missing or non-numeric fields of the provider's answer are not modelled.
