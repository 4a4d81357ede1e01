# Weather formatter model

A Dafny model of the data-formatting layer of the `WeatherService` class in
`Weather/weather.js`: the functions that turn the weather API's JSON responses
into the view models the page shows. The model proves properties of those
functions.

- `formatCurrentWeather` rounds the four temperatures and converts pressure
  from hPa to mmHg. It names the wind's compass point and turns the API's
  second timestamps into milliseconds.
- `getWindDirection` maps a bearing in degrees to one of eight Russian
  compass abbreviations, using `Math.round(degrees / 45) % 8`.
- `formatForecastData` groups the 3-hour forecast samples by local calendar
  day. The grouping key is `toLocaleDateString('ru-RU')`. It keeps the first
  five days in order of first appearance and reduces each day to four values:
  - the rounded mean temperature;
  - the most frequent condition description;
  - the weekday abbreviation;
  - an icon.
- `getDayOfWeek` abbreviates the weekday.
- `getUserErrorMessage` maps a raw error message to one of five user-facing
  messages by looking for markers such as `"404"` or `"NetworkError"`.

Modules:

- `Wrappers` holds `Option`. `None` stands for a call that throws in
  JavaScript: `weather[0]` of an empty array is `undefined`, and reading its
  `.main` or `.description` raises a `TypeError`.
- `JsSemantics` models the JavaScript operations the formatters rely on:
  - `Math.round`, which rounds halves up and is modelled as `floor(x + 1/2)`;
  - the truncating `%`;
  - `String.prototype.includes`;
  - `Array.prototype.findIndex`.
- `InsertionOrder` models the key order of a JavaScript object that is built
  by assignment. Keys come in order of first insertion; all keys here are
  non-numeric strings. An object is modelled as a sequence of key/value
  entries.
- `Calendar` holds the local-time fields of a `Date` and `getDayOfWeek`.
- `WeatherData` holds the response shapes.
- `CurrentWeather` models `formatCurrentWeather` and `getWindDirection`.
- `ErrorMessages` models `getUserErrorMessage`.
- `Forecast` models `formatForecastData`.

The grouping and the condition count are loops in the source. They are
methods here: `GroupByDay`, `CountConditions` and `SummarizeDays`. Each is
proved against a specification function (`Grouped`, `Tally`, `Summarize`),
and lemmas prove what those functions mean:

- every day's group holds exactly that day's samples, in input order;
- days come in order of first appearance;
- the chosen condition is a mode of the day.

Numbers are exact reals. The JSON's floating-point values are not modelled.

Two behaviours of the code that the model states outright:

- **The forecast icon.** The `findIndex` callback result is named
  `noonIndex` and tests for hours 11 to 13, but the test reads the hour of
  the day's first `date` (Weather/weather.js:203), not the hour of each
  sample. So `findIndex` returns 0 or -1, and the icon is always that of the
  day's first sample. `Forecast.RepresentativeIconIsFirst` proves this, and
  `Forecast.SummarizeThreeSamples` shows it on a day with a 12:00 sample.
- **Negative bearings.** `getWindDirection` truncates `%` toward zero. A
  negative bearing below -22.5 degrees (down to -337.5) therefore indexes the
  table with a negative number, and the compass point is `undefined` (`None`
  here).

## Model

| member | source | states |
|---|---|---|
| JsSemantics.Round | Weather/weather.js:143-146 | `Math.round(x)` is the integer n with n - 1/2 <= x < n + 1/2 (halves round up) |
| JsSemantics.RoundMonotone | Weather/weather.js:143-146 | rounding never reverses the order of two numbers |
| JsSemantics.RoundShift | Weather/weather.js:222 | rounding commutes with adding an integer |
| JsSemantics.TruncRem | Weather/weather.js:222 | JavaScript's `%` for a positive modulus: the remainder has the sign of the dividend, lies strictly between -m and m, and recombines with the truncated quotient |
| JsSemantics.IncludesIffOccurs | Weather/weather.js:237-243 | `includes` is true exactly when the marker occurs at some position of the message |
| JsSemantics.FindIndex | Weather/weather.js:202-205 | `findIndex` yields the first index whose callback holds, or -1 exactly when none does |
| InsertionOrder.Distinct | Weather/weather.js:187 | the keys of an object filled by assignment: every key was inserted, and there are no more keys than insertions |
| InsertionOrder.DistinctMember | Weather/weather.js:187 | a string is a key exactly when it was inserted |
| InsertionOrder.DistinctSnoc | Weather/weather.js:173-180 | assigning a new key appends it to the key list; assigning an existing key leaves the list unchanged |
| InsertionOrder.DistinctHasNoDuplicates | Weather/weather.js:187 | `Object.keys` lists every key once |
| InsertionOrder.DistinctInFirstAppearanceOrder | Weather/weather.js:187 | `Object.keys` lists the keys in the order of their first insertion |
| InsertionOrder.OccurrencesSnoc | Weather/weather.js:194-196 | one more element raises the count of its own value by one and leaves the other counts unchanged |
| InsertionOrder.IndexOfKey | Weather/weather.js:173 | the lookup `obj[key]`: the entry's position, or -1 exactly when the key is absent |
| Calendar.DayOfWeek | Weather/weather.js:231-234 | `getDayOfWeek` gives one of the seven two-letter abbreviations, "Вс" exactly on Sunday |
| Calendar.DayOfWeekInjective | Weather/weather.js:231-234 | two dates get the same abbreviation exactly when they fall on the same weekday |
| CurrentWeather.WindIndex | Weather/weather.js:222 | the index is strictly between -8 and 8, and non-negative for a non-negative bearing |
| CurrentWeather.WindDirection | Weather/weather.js:220-224 | a compass point from the table exactly when the index is non-negative, otherwise `undefined` |
| CurrentWeather.WindDirectionDefined | Weather/weather.js:220-224 | every non-negative bearing names one of the eight points |
| CurrentWeather.WindSector | Weather/weather.js:220-224 | a bearing from 45k - 22.5 up to 45k + 22.5 names the (k mod 8)-th point |
| CurrentWeather.WindNorth | Weather/weather.js:220-224 | 0 and 360 degrees are both north |
| CurrentWeather.WindFullTurn | Weather/weather.js:220-224 | adding a full turn to a non-negative bearing keeps its point |
| CurrentWeather.WindDirectionUndefined | Weather/weather.js:220-224 | the result is `undefined` exactly when the rounded sector is negative and not a multiple of 8, as for all bearings from -337.5 up to -22.5 |
| CurrentWeather.PressureMmHg | Weather/weather.js:155 | the pressure in mmHg is the integer nearest to hPa × 0.750062 |
| CurrentWeather.PressureMonotone | Weather/weather.js:155 | a higher pressure never shows as a lower one |
| CurrentWeather.PressureSeaLevel | Weather/weather.js:155 | 1013 hPa shows as 760 mmHg |
| CurrentWeather.FormatCurrentWeather | Weather/weather.js:136-164 | defined exactly when `weather` is non-empty; location and conditions copied; the four temperatures and the pressure rounded; wind via `getWindDirection`; humidity and clouds copied; times in milliseconds |
| CurrentWeather.CurrentWithinRange | Weather/weather.js:143-146 | a current temperature between the minimum and the maximum stays between them after rounding |
| ErrorMessages.GetUserErrorMessage | Weather/weather.js:236-248 | the result is always one of the five user messages |
| ErrorMessages.FirstMatch | Weather/weather.js:236-248 | a first-match rule table yields the message of the first rule that matches, and the fallback when no rule matches |
| ErrorMessages.UserErrorMessageIsFirstMatch | Weather/weather.js:236-248 | the chain of checks equals the first match over the table (404 or "Город не найден", 401, 429, NetworkError) |
| ErrorMessages.UserMessagesDistinct | Weather/weather.js:238-246 | the five messages are pairwise different |
| ErrorMessages.UserErrorMessagePriority | Weather/weather.js:236-248 | for each message, the exact condition on the markers under which it is shown; the generic one exactly when no marker occurs |
| ErrorMessages.ThrownErrorsClassified | Weather/weather.js:237-238 | a geocoding 404 and the "city not found" error both give the city-not-found message |
| Forecast.DayKeys | Weather/weather.js:187 | `Object.keys(dailyForecast)`: day keys of the samples, each listed once |
| Forecast.DayKeySeq | Weather/weather.js:170-171 | the day key of each sample, in input order |
| Forecast.SamplesOn | Weather/weather.js:169-185 | the samples whose day key is the given one, as many as the key occurs |
| Forecast.EmptyGroup | Weather/weather.js:173-179 | a new day's entry is dated by its sample and starts with empty arrays |
| Forecast.Push | Weather/weather.js:182-184 | the three `push` calls append the sample's temperature, description and icon, keep the earlier values and keep the date |
| Forecast.GroupOf | Weather/weather.js:173-184 | a day's group is dated by its first sample and has one temperature, condition and icon per sample |
| Forecast.GroupOfContents | Weather/weather.js:182-184 | the j-th pushed values are the j-th sample's `main.temp`, `weather[0].description` and `weather[0].icon` |
| Forecast.GroupOfSnoc | Weather/weather.js:182-184 | one more sample of a day pushes its three values onto that day's group |
| Forecast.Grouped | Weather/weather.js:169-185 | the `forEach` fold over the samples, one step per sample as GroupedSnoc states; GroupedGroupsByDay states what it computes |
| Forecast.GroupedSnoc | Weather/weather.js:169-185 | one iteration of `forEach`: a new day key appends a fresh group; a known key pushes onto that group |
| Forecast.ByDay | Weather/weather.js:169-187 | the meaning of `dailyForecast`: one entry per distinct day key, as many as `Object.keys` lists, each holding that day's group |
| Forecast.ByDayIndexOfKey | Weather/weather.js:173 | `dailyForecast[dateKey]` exists exactly when some sample has that day key |
| Forecast.NewDayKeys | Weather/weather.js:173-187 | the first sample of a new day adds its key after all earlier keys |
| Forecast.KnownDayKeys | Weather/weather.js:173-187 | a sample of a day already present adds no key |
| Forecast.NewDayGroup | Weather/weather.js:173-184 | the first sample of a day makes that day's group a fresh entry dated by it, holding just that sample |
| Forecast.KnownDayGroup | Weather/weather.js:182-184 | a further sample of a day is pushed onto that day's group |
| Forecast.NewDayKeepsGroup | Weather/weather.js:182-184 | a sample of another day leaves a day's group unchanged |
| Forecast.GroupedByDaySnocNew | Weather/weather.js:173-184 | a sample whose day key no earlier sample has extends the per-day grouping by one entry at the end: its key with a fresh group holding just that sample |
| Forecast.GroupedByDaySnocKnown | Weather/weather.js:182-184 | a sample whose day key is already present leaves the per-day grouping the same length and replaces only that day's entry, by the entry with the sample pushed |
| Forecast.GroupedGroupsByDay | Weather/weather.js:169-187 | after the loop, the object has one entry per distinct day in first-appearance order, each holding exactly that day's samples |
| Forecast.GroupByDay | Weather/weather.js:167-187 | the grouping loop fails exactly when a sample lacks `weather[0]`; otherwise it yields one entry per day, keyed and grouped as above |
| Forecast.GroupSizes | Weather/weather.js:173-191 | every group is non-empty with equally long arrays, so the `reduce` without an initial value and the division are defined |
| Forecast.GroupContents | Weather/weather.js:182-184 | a day's group holds exactly the values of that day's samples, in input order |
| Forecast.FirstSampleOfDay | Weather/weather.js:173-175 | the first sample of a day is the first sample in the input with that day key |
| Forecast.GroupDate | Weather/weather.js:173-175 | a group's date is that of the day's first sample |
| Forecast.Sum | Weather/weather.js:191 | the `reduce` without an initial value: one value is its own sum; SumBetween bounds the sum |
| Forecast.SumBetween | Weather/weather.js:191 | a sum of n values within [lo, hi] lies within [n·lo, n·hi] |
| Forecast.AverageTemp | Weather/weather.js:191 | the shown temperature is the mean of the day's temperatures rounded half up |
| Forecast.MeanWithin | Weather/weather.js:191 | the mean of values within bounds is within the same bounds |
| Forecast.AverageBetweenExtremes | Weather/weather.js:191 | the shown temperature lies between the day's rounded minimum and rounded maximum |
| Forecast.AverageTempThreeSamples | Weather/weather.js:191 | 10, 12 and 14.5 degrees average to 12 |
| Forecast.Tally | Weather/weather.js:193-196 | `conditionCount`: each entry is a condition of the day with its positive number of occurrences, each condition at most once |
| Forecast.TallySnoc | Weather/weather.js:194-196 | one step of the counting loop: a new condition is appended with count 1; a known condition's count goes up by one |
| Forecast.CountConditions | Weather/weather.js:193-196 | the counting loop gives each distinct condition with its number of occurrences, in first-appearance order |
| Forecast.MostCommonAt | Weather/weather.js:198-200 | the `reduce` with a strict `>` picks an entry of maximum count that no later entry ties |
| Forecast.MostCommonCondition | Weather/weather.js:198-200 | the chosen condition is one of the day's conditions |
| Forecast.MostCommonConditionIsMode | Weather/weather.js:193-200 | the chosen condition occurs in the day, none occurs more often, and an equally frequent other condition was seen earlier: ties go to the one first seen later |
| Forecast.MostCommonConditionTie | Weather/weather.js:198-200 | of one "ясно" and one "облачно", the later "облачно" is chosen |
| Forecast.MostCommonConditionThreeSamples | Weather/weather.js:193-200 | of one "ясно" and two "облачно", "облачно" is chosen |
| Forecast.NoonIndex | Weather/weather.js:202-205 | `findIndex` is 0 when the group is non-empty and its date's hour is 11 to 13, and -1 otherwise |
| Forecast.RepresentativeIcon | Weather/weather.js:213 | the icon at `noonIndex`, or the first icon when that one is missing or empty, is one of the day's icons |
| Forecast.RepresentativeIconIsFirst | Weather/weather.js:202-213 | the noon test ignores the sample, so `findIndex` is 0 or -1 and the icon is always the day's first icon |
| Forecast.Summarize | Weather/weather.js:189-215 | the `map` callback keeps the group's date and weekday, shows a temperature between the rounded extremes, one of the day's conditions and the first sample's icon |
| Forecast.FormatDay | Weather/weather.js:189-215 | the `map` callback computes the date, weekday, rounded mean, most common condition and icon of the group |
| Forecast.SummarizeThreeSamples | Weather/weather.js:166-215 | samples at 09:00, 12:00 and 15:00 of one Wednesday, grouped and summarised, show "Ср", 12 degrees, "облачно" and the 09:00 icon, although the 12:00 sample is in the noon window |
| Forecast.SummarizeDays | Weather/weather.js:189-215 | mapping over the kept days summarises each group in order |
| Forecast.FormatForecastData | Weather/weather.js:166-218 | fails exactly when a sample lacks `weather[0]`; otherwise there is one summary per day for the first min(5, number of days) days in first-appearance order, each that day's samples' summary |
| Forecast.ForecastDayFacts | Weather/weather.js:173-213 | each day is dated by its first sample and shows that sample's weekday and icon, with a temperature between the rounded extremes of the day |

## Left out

- The network methods `getWeatherByCity`, `getWeatherByCoords` and `getForecast` (Weather/weather.js:8-134), their `fetch` calls and their `console.error` logging are not part of this model.
- `Weather/app.js`, the browser `WeatherApp` class that renders the results into the page, is not part of this model.
- The `WeatherService` constructor and its API key: only the pure formatters are modelled.
- `formatDate` and the `dateString` field: the Russian long-date format depends on the runtime's locale data.
- `toLocaleDateString('ru-RU')`, `getHours()` and `getDay()` depend on the time zone and locale, so they are not computed. Each sample's `LocalDate` carries them as data, next to its epoch time.
- `visibility: (data.visibility / 1000).toFixed(1)`: the string formatting of a float.
- Floating point: temperatures, pressures and bearings are exact reals, so double rounding errors and NaN are not modelled. The sum `reduce` is exact.
- `Date` objects: `sunrise`, `sunset` and `timestamp` are modelled as the millisecond counts the `Date`s are built from.
- Keys named after `Object.prototype` properties: the model treats every day key and condition as a fresh key. In JavaScript, a day key such as `"constructor"` finds the inherited property, so `!dailyForecast[dateKey]` is false, no entry is created and `.temps.push` throws; a condition `"__proto__"` makes the assignment in the counting loop (Weather/weather.js:195) be ignored. Real day keys ("15.10.2025") and descriptions are never such names.
- Object key order: JavaScript lists integer-like keys first. The day keys ("15.10.2025") and condition descriptions are not integer-like, so the model uses plain insertion order.
- `data.list` itself being absent (a `TypeError` on `forEach`) is not modelled: the input is a sequence of samples.
