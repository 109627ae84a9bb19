# Weather screen — a Dafny model

This project models the logic of the single weather screen of a React Native
app (`components/Main.tsx`): the description sentence built from a
temperature and a condition text (`generateDescription`), the view state and
its transitions (the search submit `handleSearch` and the life cycle of
`fetchWeather`), and the `DD-MM` day label of each forecast card.

Modules:

- `Optional` (`optional.dfy`): the `Option` type used for the absent current
  weather and for the parsers.
- `JsString` (`js_string.dfy`): the JavaScript string operations the screen
  uses — `includes` (exact, case-sensitive substring search), `trim` (the
  ECMAScript WhiteSpace and LineTerminator sets, sections 12.2 and 12.3 of
  ECMA-262) and `slice` with clamped non-negative arguments.
- `Description` (`description.dfy`): `GenerateDescription`, written as the
  source's two cascades, and an independent table-driven reading of it
  (`Limits`/`Bands` for the temperature bands, `Rules` for the condition
  priority), plus a parser that reads a description back.
- `WeatherView` (`weather_view.dfy`): the five pieces of component state,
  the abstract fetch outcome (`Success`, `ProviderError`, `TransportError`),
  the transitions, and sessions (state plus the fetch in flight) driven by a
  sequence of events.
- `ForecastLabel` (`forecast_label.dfy`): the `slice(8,10) + '-' + slice(5,7)`
  label and its round trip with `YYYY-MM-DD` dates.

Condition matching is case-sensitive because the code uses
`String.prototype.includes`, so "Patchy rain possible" at 3 °C gets
"Very cold. No major weather events expected." (`Description.NoCapitalsNoEvents`).

## Model

| member | source | states |
|---|---|---|
| JsString.Includes | components/Main.tsx:34-40 | `includes` answers true exactly when the pattern occurs, character for character, somewhere in the text |
| JsString.Trim | components/Main.tsx:97-98 | `trim` yields a piece of the input with only whitespace cut on either side, non-whitespace at both ends, and is empty exactly when the input is all whitespace |
| JsString.TrimIdempotent | components/Main.tsx:97-98 | trimming the already trimmed query changes nothing |
| JsString.Slice | components/Main.tsx:186 | `slice` clamps both bounds to the length and yields the empty string when the start is not before the end |
| Description.GenerateDescription | components/Main.tsx:17-47 | the sentence is always one band phrase chosen from the temperature followed by one outlook phrase chosen from the condition, as the two tables define them |
| Description.TemperaturePart | components/Main.tsx:20-31 | the source's temperature cascade yields the phrase of the band the limits table assigns |
| Description.ConditionPart | components/Main.tsx:33-44 | the source's `includes` cascade yields the phrase of the outlook the priority table assigns |
| Description.BandCascade | components/Main.tsx:21-31 | reading the band off the limits table gives the band of the first inclusive upper bound 5, 15, 25, 35 that the temperature does not exceed |
| Description.BandThresholds | components/Main.tsx:21-31 | each band holds exactly the temperatures of its half-open interval, so 5 and 35 fall into the colder band |
| Description.BandMonotone | components/Main.tsx:21-31 | a higher temperature never yields a colder band |
| Description.ConditionPriority | components/Main.tsx:34-44 | the outlook is Rain's whenever "Rain" occurs, even alongside the others; Cloud beats Sunny, Clear and Snow; Sunny or Clear beats Snow; the default is used exactly when none of the five patterns occurs |
| Description.NoCapitalsNoEvents | components/Main.tsx:34-44 | a condition text without a capital R, C or S (lower-case "rain") gets the default sentence |
| Description.PatchyRainExample | components/Main.tsx:17-47 | 3 °C and "Patchy rain possible" give "Very cold. No major weather events expected.": lower-case "rain" does not match |
| Description.HotSunnyExample | components/Main.tsx:17-47 | 40 °C and "Sunny" give "Extremely hot. Clear skies with plenty of sunshine." |
| Description.ParseDescription | components/Main.tsx:17-46 | whatever the parser reads from a text is a band phrase followed by an outlook phrase that make up the text exactly |
| Description.ParseComposed | components/Main.tsx:17-46 | a band phrase followed by an outlook phrase is read back as that band and outlook |
| Description.ComposedInjective | components/Main.tsx:17-46 | a band phrase followed by an outlook phrase determines both: equal sentences come from equal choices and conversely |
| Description.DescriptionRoundTrip | components/Main.tsx:17-46 | every generated sentence is read back as the band of its temperature and the outlook of its condition |
| Description.DescriptionDeterminedByChoices | components/Main.tsx:17-46 | two sentences are equal exactly when their bands and their outlooks are equal: temperature only shapes the prefix and condition only the suffix |
| WeatherView.Initial | components/Main.tsx:11-15 | the screen starts on Gwalior with an empty search box, no weather, no forecast days and no spinner |
| WeatherView.EditSearch | components/Main.tsx:113-115 | typing replaces the search text and nothing else |
| WeatherView.FetchStart | components/Main.tsx:50-52 | starting a fetch raises the loading flag and nothing else |
| WeatherView.Settle | components/Main.tsx:58-66 | every outcome clears loading; a success stores the current block, the forecast days and the provider's location name; either failure keeps weather, forecast and city |
| WeatherView.HandleSearch | components/Main.tsx:96-101 | no fetch and no change when the search text is all whitespace; otherwise a fetch for the trimmed, non-empty text starts and the box is cleared |
| WeatherView.SecondSubmitIsIgnored | components/Main.tsx:96-101 | pressing search again right after a submit issues no second fetch |
| WeatherView.SubmitThenSettle | components/Main.tsx:58-101 | a submit followed by a failed fetch leaves the data as it was with an empty box; followed by a success, the city is the provider's name whatever was typed |
| WeatherView.CurrentDescription | components/Main.tsx:143-145 | the description is empty without current weather, and otherwise is the band and outlook of its temperature and condition text |
| WeatherView.ForecastLabels | components/Main.tsx:169-187 | one label per forecast day in order, each at most five characters and `DD-MM` for full dates |
| WeatherView.Mount | components/Main.tsx:69-71 | mounting shows the initial state with the spinner and one fetch in flight for Gwalior |
| WeatherView.Step | components/Main.tsx:50-101 | every event keeps the loading flag up exactly while a fetch is in flight; a settlement applies the outcome, a submit applies the search handler |
| WeatherView.Run | components/Main.tsx:50-66 | loading is true exactly while a fetch is in flight after any sequence of events |
| WeatherView.CityComesFromProvider | components/Main.tsx:58-61 | after any sequence of events the city shown is the starting one or a location name a successful fetch returned |
| WeatherView.FailuresKeepData | components/Main.tsx:58-66 | a sequence of events without a successful fetch leaves weather, forecast and city untouched |
| ForecastLabel.DayMonth | components/Main.tsx:186 | for a date of at least ten characters the label has five characters, a '-' at index 2, and is characters 8-9, '-', characters 5-6 |
| ForecastLabel.LabelOfIsoDate | components/Main.tsx:186 | a `YYYY-MM-DD` date is labelled day then month, two digits each, and the label reads back as that day and month |

## Left out

- Rendering, JSX, the style sheets and the icon/label array (`components/Main.tsx:73-94`, `103-267`): presentation; its one unmodelled decision is the spinner shown instead of the weather and forecast content while `loading` is true (line 126).
- The HTTP request, URL building with the API key, JSON parsing and the console warning: the fetch result is the abstract `FetchOutcome`.
- A response without `error` but missing `forecast`: `current` is stored, then the code throws. Missing `location`: `current` and the forecast days are stored, then it throws. The model treats every response without `error` as a complete `Success`.
- Overlapping fetches from a second submit while one is in flight: in `Step` the new fetch replaces the pending one and settlements are taken one at a time; the source's last-write-wins race is not modelled.
- React effect scheduling and batching of state updates: only the fact that mounting issues one fetch for the initial city is kept (`Mount`).
- The weekday label `new Date(day.date).toDateString()` (`components/Main.tsx:189`): it depends on the host's date and time-zone handling.
- IEEE floating point in the temperature (NaN falls through every comparison into "Extremely hot."): temperatures are `real`.
- Strings are sequences of Unicode characters, while JavaScript counts UTF-16 code units; the two agree on the ASCII dates and the patterns used here.
- ForecastLabel.DayMonth: for dates of six to nine characters only the length bound is stated, not the exact clamped pieces.
- `App.tsx`: layout and background only.
