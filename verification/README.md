# openweathermap-ts client core, modelled in Dafny

`OpenWeatherMap` is a small TypeScript client for the OpenWeatherMap
current-weather API. It holds a settings record (`apiKey`, `units`,
`language`) and offers three setters and two getters. Its city-name,
city-id and coordinates lookups each build a query string and pass it to
`buildURL`, which produces the request URL that goes to `fetch`. The
zipcode lookup, as written, fails before it builds its query (see
"Left out"); the model covers its formatting step as it would run once
the country code is resolved.

This project models that logic as pure functions over immutable values:

- `wrappers.dfy`: module `Wrappers`. `Option` stands for a value that may be `undefined`.
- `number_text.dfy`: module `NumberText`. It renders a safe-integer JavaScript number into a template literal (`${n}`), and gives a reader that inverts that rendering.
- `open_weather_map.dfy`: module `OpenWeatherMap`. It holds:
  - the `Settings` and `Client` datatypes;
  - the constructor (`New`) and the three setters;
  - `GetSettings` and `GetAllSettings`;
  - `BuildURL` and the URL reader `QueryOf`;
  - the `Locator` of a lookup and its `QueryString`;
  - `GetSettingsAsWritten`, the lookup as the source writes it (see Findings).
- `query_parsing.dfy`: module `QueryParsing`. It reads a query string back into its `Locator`, and proves that query strings and locators determine each other.
- `client_properties.dfy`: module `ClientProperties`. It holds lemmas that link the constructor, the getters, the setters and the URL builder, plus worked examples.
- `session.dfy`: module `Session`. A client's life is modelled as a sequence of setter calls. Its lemmas say that the base URL never changes, that the last `setApiKey` decides the `appid` of every later URL, and that units and language never reach a URL.

A client's settings are also viewed as a JavaScript object through `Fields`, a map from property name to value. The setters' contracts are written in terms of that map: each one updates exactly one property.

## Model

| member | source | states |
|---|---|---|
| `NumberText.NumberToString` | src/app.ts:107 | a rendered number is non-empty and made only of digits, with at most one leading minus sign |
| `NumberText.NumberRoundTrip` | src/app.ts:107 | reading back the text of any safe integer gives that integer |
| `NumberText.ParseNumberCanonical` | src/app.ts:107 | every text the reader accepts (and reads as a safe integer) is exactly the rendering of that integer, so the rendering is a bijection onto its texts |
| `OpenWeatherMap.New` | src/app.ts:34-45 | the constructor keeps `apiKey`, `units` and `language` as given; `units` defaults to "imperial" and `language` to "en" when absent; the base URL is the host plus the API version |
| `OpenWeatherMap.SetApiKey` | src/app.ts:53-55 | the settings object afterwards equals the old one with only `apiKey` overwritten; the base URL is unchanged |
| `OpenWeatherMap.SetUnits` | src/app.ts:57-59 | only `units` is overwritten; `apiKey`, `language` and the base URL are unchanged |
| `OpenWeatherMap.SetLanguage` | src/app.ts:61-63 | only `language` is overwritten; `apiKey`, `units` and the base URL are unchanged |
| `OpenWeatherMap.GetSettings` | src/app.ts:71-81 | an absent or empty key returns the whole record; a non-empty key naming a non-empty setting returns its value; any other non-empty key returns "<key> is not found!" |
| `OpenWeatherMap.GetSettingsAsWritten` | src/app.ts:71-81 | as written, a key naming an inherited `Object.prototype` member returns that member; every other key behaves exactly as in `GetSettings` |
| `OpenWeatherMap.GetAllSettings` | src/app.ts:83-85 | returns the settings record itself: the same three properties with the same values |
| `OpenWeatherMap.ZipQuery` | src/app.ts:149 | `zip=` followed by the decimal zipcode, which reads back as the zipcode; a comma occurs exactly when the code is non-empty, and then the query ends with `,code` |
| `OpenWeatherMap.QueryString` | src/app.ts:87-150 | `q=name`; `id=` followed by the decimal id, which reads back as the id; `lat=..&lon=..`; the zipcode query of `ZipQuery` |
| `OpenWeatherMap.BuildURL` | src/app.ts:165-169 | the URL is the base URL, the endpoint and "?", then the query, then "&appid=" and the API key, with nothing else between them |
| `OpenWeatherMap.CurrentWeatherURL` | src/app.ts:87-163 | every current-weather lookup builds a `weather` URL from which the URL reader recovers exactly the lookup's query string |
| `QueryParsing.QueryRoundTrip` | src/app.ts:87-150 | reading back the query string of a locator (`q=name`, `id=n`, `lat=..&lon=..`, `zip=n` with `,code` only for a non-empty code) gives that locator back |
| `QueryParsing.ParseQueryExact` | src/app.ts:87-150 | every string the query reader accepts is exactly the query string of the locator it reads |
| `QueryParsing.CityIdRoundTrip` | src/app.ts:107-108 | the city-id query `id=<n>` is read back as the same id |
| `QueryParsing.GeoRoundTrip` | src/app.ts:127-128 | the coordinates query `lat=<lat>&lon=<lon>` is read back as the same two coordinates |
| `QueryParsing.ZipRoundTrip` | src/app.ts:146-150 | the zipcode query is read back as the same zipcode and country code; an empty code leaves no comma |
| `ClientProperties.NewDropsExtraKeys` | src/app.ts:34-43 | two init records that agree on `apiKey`, `units` and `language` build the same client, whatever other keys they hold |
| `ClientProperties.GetSettingsAfterNew` | src/app.ts:34-78 | right after construction, a settings key reads back its given value or its default; if that value is empty, it reads back the not-found message |
| `ClientProperties.GetSettingsWithoutKeyIsAll` | src/app.ts:71-85 | `getSettings()` and `getSettings("")` return the same record as `getAllSettings()` |
| `ClientProperties.NotFoundIsAmbiguous` | src/app.ts:72-77 | a setting that stores the literal not-found text reads the same as a cleared one, so the string result cannot tell found from missing |
| `ClientProperties.GetSettingsAfterSetApiKey` | src/app.ts:53-78 | after `setApiKey(k)`, `getSettings("apiKey")` returns k, or "apiKey is not found!" when k is empty; every other non-empty key reads as before |
| `ClientProperties.BuildURLReadsBack` | src/app.ts:165-169 | the URL reader returns q for a URL exactly when `buildURL` with q produces that URL |
| `ClientProperties.BuildURLInjective` | src/app.ts:165-169 | for one client and endpoint, different queries give different URLs |
| `ClientProperties.BuildURLIgnoresUnitsAndLanguage` | src/app.ts:165-169 | setting units and language leaves every URL unchanged |
| `ClientProperties.BuildURLEndsWithApiKey` | src/app.ts:165-169 | after `setApiKey(k)`, every URL ends with "&appid=" followed by k |
| `ClientProperties.BuildURLShape` | src/app.ts:165-169 | the URL is exactly base URL + endpoint + "?" + query + "&appid=" + API key |
| `ClientProperties.CurrentWeatherURLInjective` | src/app.ts:87-169 | two lookups that build the same request URL have the same locator |
| `ClientProperties.InheritedKeyFinding` | src/app.ts:72-77 | as written, `getSettings("constructor")` returns the inherited constructor; the corrected lookup returns "constructor is not found!" |
| `ClientProperties.AsWrittenAgreesElsewhere` | src/app.ts:71-81 | for every key that is not an inherited member name, the lookup as written and the corrected lookup agree |
| `ClientProperties.ExampleSettings` | src/app.ts:34-45 | a client built from `{apiKey: "K1"}` holds `{apiKey: "K1", units: "imperial", language: "en"}`, and `getSettings()` returns that record |
| `ClientProperties.ExampleCityIdQuery` | src/app.ts:107 | city id 300 gives the query `id=300` |
| `ClientProperties.ExampleZipcodeQuery` | src/app.ts:149 | zipcode 78754 with code `us` gives `zip=78754,us`; with an empty code it gives `zip=78754` |
| `ClientProperties.ExampleCityIdRequest` | src/app.ts:104-119 | city id 300 on the K1 client requests the base URL followed by `weather?id=300&appid=K1` |
| `ClientProperties.ExampleZipcodeRequest` | src/app.ts:142-163 | zipcode 78754 with code `us` on the K1 client requests the base URL followed by `weather?zip=78754,us&appid=K1` |
| `ClientProperties.BaseURLValue` | src/app.ts:27-28 | the base URL is "https://api.openweathermap.org/data/2.5/" |
| `Session.Apply` | src/app.ts:53-63 | each setter call overwrites exactly its own settings property and keeps the base URL |
| `Session.RunKeepsBaseURL` | src/app.ts:44 | no sequence of setter calls changes the base URL |
| `Session.RunKeepsUntouched` | src/app.ts:53-63 | a settings property that no call in the sequence sets keeps its value |
| `Session.SessionURLsStartWithBaseURL` | src/app.ts:27-44 | every URL that a constructed client builds after any setter calls starts with the base URL |
| `Session.LastApiKeyWins` | src/app.ts:53-168 | after `setApiKey(k)`, every URL ends with "&appid=" followed by k until the key is set again, whatever units or language calls come between |
| `Session.UnitsAndLanguageNeverChangeURL` | src/app.ts:57-168 | any sequence of units and language calls leaves every URL unchanged |
| `Session.GetSettingsAfterApply` | src/app.ts:53-78 | right after a setter call, its own key reads back the new value (or the not-found message if that value is empty); every other non-empty key reads as before |

## Left out

- `fetch`, `response.json()`, the `Promise` and `async` wrappers, and their resolve/reject plumbing are network I/O and asynchrony. The model stops at the URL handed to `fetch`.
- `dotenv.config()` and `process.env.API_KEY` load the environment. The init record is a parameter instead. `New` requires an `apiKey` property because the constructor's parameter type demands one. An `undefined` key, which would render as `appid=undefined`, is not modelled.
- The module-level usage code and every `console.log` are side effects and not behaviour.
- As written, `Countries` is neither declared in nor imported into src/app.ts, so src/app.ts:147 throws a `ReferenceError` on every call and the zipcode lookup rejects (src/app.ts:159-160) before it builds a query. `OpenWeatherMap.Zipcode`, `OpenWeatherMap.ZipQuery`, `QueryParsing.ZipRoundTrip` and `ClientProperties.ExampleZipcodeRequest` model the formatting step at src/app.ts:149-150 as it would run once the code is resolved. They take the resolved, lower-cased country code as an input. The resolution itself (`Countries[capitalize(country)] || country`, then `.toLowerCase()`) is not modelled; `capitalize` lives in `src/helpers`, which is not part of this model.
- Coordinates are taken as already-rendered text. Their rendering is JavaScript's float-to-string conversion.
- The city id and the zipcode are modelled as the integers n for which `Number.isSafeInteger(n)` holds (`NumberText.SafeInteger`, |n| ≤ 2^53 − 1); their rendering is the plain decimal. Above that bound a `number` can no longer hold every integer, and from 10^21 on it renders with an exponent. Fractions, integers outside the safe range, `NaN` and `Infinity` are not modelled. Because the zipcode is a number, a zipcode with leading zeros loses them when rendered.
- `Units` and `Languages` are defined in `src/types`, which is not part of this model. Units and language are plain strings.
- `getSettings()` and `getAllSettings()` return the live settings object, so a caller could mutate it. Values are immutable here, so that aliasing is not modelled.
- An init property explicitly set to `undefined` (such as `units: undefined`) is modelled as an absent key. The default applies in both cases.
- The `forecast` endpoint exists in the `TypeQuery` type but no lookup uses it. `BuildURL` accepts it; every lookup uses `weather`.
- The code never appends `units` or `lang` to the URL (src/app.ts:168), so the model does not either. The constructor does not reject an empty `apiKey` (src/app.ts:34-44), and neither does `New`.
- QueryParsing.QueryRoundTrip: for coordinates, this requires that the latitude text contain no '&'. Otherwise a query string would not determine where the latitude ends. Rendered numbers never contain one.
- ClientProperties.CurrentWeatherURLInjective: carries the same condition on the latitude text, for the same reason.

## Findings

| source | as written | input that shows it | evidently intended | confidence | as-written member | corrected member |
|---|---|---|---|---|---|---|
| src/app.ts:72-77 | `this.settings[key]` also finds properties inherited from `Object.prototype`, which are truthy, so they are returned as the "value" | `getSettings("constructor")` (also `toString`, `valueOf`, `__proto__`, ...) returns a function or object | "constructor is not found!", as for every other key the settings do not hold | high, not executed | `OpenWeatherMap.GetSettingsAsWritten` (shown by `ClientProperties.InheritedKeyFinding`) | `OpenWeatherMap.GetSettings` |
