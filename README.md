# Weather forecast lookup pipeline, modelled in Dafny

This project models the decision logic of a small weather client
(`src/services/weatherApi.ts`). The client resolves a city name to
coordinates with a geocoding service, fetches a forecast for those
coordinates, and normalises it into a `WeatherResponse`. The model covers:

- the WMO weather-code description table (Chinese descriptions) and its
  `'未知天气'` fallback (`getWeatherDescription`);
- the ordered if-chain that sorts every integer code into one of seven icon
  ids (`getWeatherIcon`);
- `Math.round` on temperatures;
- the assembly inside `getWeatherData`. It rejects a missing or empty
  geocoding result, zips the index-aligned `daily` series into one record per
  day, fills the constant fields, falls back to country `'CN'`, and collapses
  every failure into the message `'获取天气数据失败，请检查城市名称是否正确'`.

Files:

- `wrappers.dfy`: module `Wrappers`, with `Option` and `Result`.
- `weather_types.dfy`: module `WeatherTypes`, with the record shapes of
  `src/types/weather.ts` as datatypes (`wind_speed` is spelled `windSpeed`).
- `weather_api.dfy`: module `WeatherApi`, with everything above.

The source is purely functional apart from its two awaited HTTP calls. The
model therefore uses functions and lemmas only. The calls become inputs:

- the geocoding answer is a value of type `Http<GeoBody>`;
- the forecast call is a function `fetchForecast: (real, real) -> Http<ForecastBody>`
  of the latitude and longitude it is made for. So the model shows that the
  forecast is fetched for the first geocoding match's coordinates.

`Http<T>` is either the response body (`Ok`) or a rejected request
(`RequestError`). Turning a forecast date string into epoch seconds
(`new Date(date).getTime() / 1000`) is the parameter `toEpoch: string -> int`.

Internally, `FetchWeather` keeps the reason a call failed: `CityNotFound`,
`RequestFailed`, or `MalformedForecast` (a forecast body without `daily`,
which makes the assembly throw a `TypeError` inside the `try`).
`GetWeatherData` is the `try`/`catch` around it. It returns a success unchanged
and turns every failure into the one fixed message.

## Model

| member | source | states |
|---|---|---|
| `WeatherApi.Description` | src/services/weatherApi.ts:74-106 | never empty; a listed code with a non-empty entry gets its entry; a code missing from the table gets `'未知天气'`; the result is always a table value or the fallback |
| `WeatherApi.TableKeys` | src/services/weatherApi.ts:75-104 | the table has entries for exactly the 28 codes 0, 1, 2, 3, 45, 48, 51, 53, 55, 56, 57, 61, 63, 65, 66, 67, 71, 73, 75, 77, 80, 81, 82, 85, 86, 95, 96, 99 |
| `WeatherApi.TableEntries` | src/services/weatherApi.ts:75-105 | every table entry is non-empty and differs from the fallback, so the fallback fires only for missing keys |
| `WeatherApi.DescriptionKnownIff` | src/services/weatherApi.ts:74-106 | a known code gets its own table entry, and the description is the fallback if and only if the code is not one of the 28 known codes |
| `WeatherApi.Icon` | src/services/weatherApi.ts:108-118 | total over all integers, always one of the seven icon ids; `'02d'` iff code is 1 or 2, `'03d'` iff 3, `'10d'` iff 51..67, `'13d'` iff 71..77, `'50d'` iff 45 or 48, `'11d'` iff code >= 95 |
| `WeatherApi.DefaultIcon` | src/services/weatherApi.ts:110-117 | `'01d'` exactly for code 0 and for every code in no named bucket (showers 80-86, negatives, gaps) |
| `WeatherApi.BucketsWithoutDescriptions` | src/services/weatherApi.ts:90-114 | freezing rain (66) has its own description and the rain icon; 72, 74 and 76 have no description but get the snow icon |
| `WeatherApi.Round` | src/services/weatherApi.ts:44-46 | `Math.round`: the result is the integer within half a unit of the input, with halves rounded upward |
| `WeatherApi.RoundMonotone` | src/services/weatherApi.ts:44-46 | rounding preserves order, so a day's rounded minimum never exceeds its rounded maximum when the raw values are ordered |
| `WeatherApi.DayShape` | src/services/weatherApi.ts:42-54 | each day: `dt` from its date; `temp.day == temp.max ==` rounded max; `temp.min` rounded min; exactly one condition with `main == description ==` the code's description and its icon; humidity and wind speed 0 |
| `WeatherApi.DailyForecasts` | src/services/weatherApi.ts:41-55 | exactly as many days as `daily.time`, and day i is built only from index i of each of the four series |
| `WeatherApi.DailySorted` | src/services/weatherApi.ts:41-42 | if the dates convert to increasing instants, the days come out in strictly increasing `dt` order |
| `WeatherApi.CountryOrDefault` | src/services/weatherApi.ts:61 | never empty; a present non-empty country is kept, a missing or empty one becomes `'CN'` |
| `WeatherApi.Locate` | src/services/weatherApi.ts:10-23 | succeeds iff the geocoding request succeeded with a present, non-empty `results`, and then gives the first result; a rejected request is `RequestFailed`, no match is `CityNotFound` |
| `WeatherApi.FetchWeather` | src/services/weatherApi.ts:8-63 | succeeds iff geocoding finds a match and the forecast for that match's coordinates arrives with a `daily` block; then the city is the match's name and defaulted country, and `daily` is the full zip of the series |
| `WeatherApi.GetWeatherData` | src/services/weatherApi.ts:7-70 | every failure carries the one fixed message; it succeeds exactly when the pipeline does, with the same response |
| `WeatherApi.NoMatchFails` | src/services/weatherApi.ts:19-20 | a missing or empty `results` fails the whole call with the fixed message |
| `WeatherApi.FailuresIndistinguishable` | src/services/weatherApi.ts:64-69 | any two failing calls look the same to the caller, whatever their internal reasons were |
| `WeatherApi.SuccessIsComplete` | src/services/weatherApi.ts:41-63 | a successful call has one day per forecast date, and day i has the converted date, rounded temperatures, the code's description and icon, and zero humidity and wind speed |

## Left out

- The HTTP calls, URLs, query parameters (`count: 1`, `language: 'zh'`, `forecast_days: 7`, `timezone: 'auto'`), headers and the `console.error` logging (src/services/weatherApi.ts:10-38, 65-68). These are network I/O; their answers are inputs, and the logged cause is dropped. So the model does not force the forecast to have seven days: `daily` has as many days as the provider sends.
- `new Date(date).getTime() / 1000` is the parameter `toEpoch`. The model does not parse ISO date strings.
- `WeatherApi.Round` is exact arithmetic on reals. IEEE-754 doubles, NaN, `-0` and infinities are not modelled. The temperatures are `real`.
- Forecast series shorter than `daily.time` are excluded by a precondition (`Covers`: each series is at least as long as `time`). In the source, reading past the end gives `undefined`, NaN temperatures and the fallback description. Longer series are allowed, and their extra elements are ignored, as in the source.
- Malformed geocoding payloads other than a missing `results` are not modelled: a missing `data`, a non-array `results`, or a result without `name`, `latitude` or `longitude`. A forecast body with `daily` but without one of its arrays is not modelled either. The model covers only a missing `daily` block (`MalformedForecast`).
- Non-integer weather codes are not modelled; codes are `int`.
- `src/App.tsx` (React state, the loading and error flags, the `city.trim()` submit guard) and `src/components/WeatherCard.tsx` (locale date formatting, icon URL) are presentation and are not part of this model.
