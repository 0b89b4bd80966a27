# weather-app page model

A Dafny model of the two page controllers of a small weather page: the user
types a postal code, the page asks the OpenWeatherMap API for the current
weather there, and it writes city, condition, temperature, icon and a
background colour into the page.

- `main.js` keeps three module-level records. `weatherData` is replaced
  wholesale (main.js:45); `page` is replaced in `setPage` (main.js:122) and
  has one field written in place (main.js:93); `userData.zip` is written in
  place (main.js:78). Nothing else holds these objects, so the model treats
  them as values held in fields. DOM elements are written one by one.
  It is modelled by `MainPage`: pure functions (`BackgroundColor`,
  `ErrorText`, `Render`, `Fetch`, `Step`) specify the class `WeatherPage`,
  whose fields are the three records and a `View` record of DOM targets,
  and whose methods follow the source statement by statement.
  `MainPageTraces` proves what holds over any sequence of input events.
- `mvc-main.js` keeps the same data in a `Weather` class with setters and
  getters, a `WeatherView` holding the targets and a `WeatherController`.
  It is modelled by `MvcPage`, with the source's quirks kept as written:
  `setCurrentConditions` writes a separate field `currentConditions`, and
  `getCurrentConditions` returns `currentIcon`, so the conditions element
  shows the icon code.
- Shared pieces: `ZipCode` (the validator, identical in both files),
  `WeatherApi` (the response shape, the weather record, the icon URL),
  `Dom` (what a text or opacity target holds) and `Wrappers` (`Option`,
  whose `None` is JavaScript's `undefined`).

The request is not made: its outcome is a parameter of type `FetchOutcome`,
one of a response with a body, a response without a body, an error response
with the provider's message, or a failure with no response at all.
JavaScript's `isNaN` is a parameter `numeric: string -> bool` of which only
`DigitsAreNumeric` is assumed: every string of decimal digits is a number.

## Behaviour worth knowing

- The zip test is "converts to a number and has length 5"
  (main.js:54-60, mvc-main.js:74-80): it accepts more than digit strings.
  The model proves that length 5 is necessary and that every five-digit
  string is accepted, and no more.
- In `main.js` the only write to `page.errorVisible` is at main.js:93, and
  it writes false: an error response shows the error element but never
  raises the flag. `ErrorFlagNeverRaised` proves the flag stays false in
  every session. After a failed lookup `contentVisible` keeps its value,
  so the previous record can stay on screen next to the error message
  (`ErrorBesideStaleContent`).
- A failure without a response makes `err.response.data` throw inside the
  `catch` of `main.js` (main.js:114); the error element stays hidden and the
  handler's promise rejects.
- A response whose `weather` array is empty throws at `data.weather[0]`
  (main.js:49) before the record is replaced: nothing else changes.
- In `mvc-main.js` an invalid zip changes nothing (content is not hidden),
  and any outcome without data makes the handler throw at `data.main`
  (mvc-main.js:90) with nothing changed. The two variants do not behave
  identically.

## Model

| member | source | states |
|---|---|---|
| ZipCode.ValidateZipCode | main.js:54-60 | an accepted value has length exactly 5; every 5-character string of decimal digits is accepted |
| MvcPage.WeatherController.ValidateZipCode | mvc-main.js:74-80 | the controller's test: accepted values have length 5, five-digit strings are accepted |
| WeatherApi.FromResponse | main.js:45-51 | the record takes city from `name`, temperature from `main.temp`, condition and icon from the first `weather` entry, all from the same response |
| WeatherApi.IconUrl | main.js:129 | the icon source is the image host URL with the icon code in the `@4x.png` file name; the code reads back out of it |
| WeatherApi.IconUrlInjective | mvc-main.js:123 | different icon codes give different icon sources |
| MainPage.BackgroundColor | main.js:29-35 | exactly the five table conditions have a colour, each its table entry; every other condition yields `undefined` |
| MainPage.ErrorText | main.js:114 | the error text is the provider message followed by ", Please Try Again." |
| MainPage.Render | main.js:127-136 | showing writes city, condition, temperature, icon URL and background from the record and sets opacity 1, leaving the error element; hiding sets opacity 0 and changes no other target |
| MainPage.SetPageSpec | main.js:120-137 | `setPage(show)` sets `contentVisible` to `show`, keeps `errorVisible` and the records, and renders the targets |
| MainPage.Fetch | main.js:91-117 | every request clears `errorVisible` and hides the error element; an error response shows its message; a failure without a response throws; only a response with a body yields data |
| MainPage.Step | main.js:73-88 | invalid zip: content hidden, zip and record kept; valid zip: zip stored, error flag cleared; usable data: record replaced and shown; otherwise record and content visibility kept |
| MainPage.WeatherPage.constructor | main.js:9-26 | the initial records: empty city, condition and icon, temperature 0, empty zip, both flags false |
| MainPage.WeatherPage.SetWeatherData | main.js:38-52 | replaces the whole record from the response and nothing else; with no `weather` entry it fails and changes nothing |
| MainPage.WeatherPage.SetBackgroundColor | main.js:139-142 | the background target receives the table entry for the condition; nothing else changes |
| MainPage.WeatherPage.SetPage | main.js:120-137 | the state afterwards is `SetPageSpec` of the state before |
| MainPage.WeatherPage.GetWeatherByZipcode | main.js:91-117 | the state and completion afterwards are `Fetch` of the state before |
| MainPage.WeatherPage.HandleZipInputChange | main.js:73-88 | the state afterwards is `Step` of the state before; the promise rejects exactly when a valid zip meets a failure without a response or an empty `weather` array |
| MainPageTraces.InitialCoherent | main.js:9-26 | the initial page is coherent |
| MainPageTraces.StepKeepsCoherent | main.js:73-88 | one input keeps the page coherent: visible content shows the current record on an opaque container, hidden content is not opaque, the stored zip is empty or valid, `errorVisible` is false |
| MainPageTraces.RunKeepsCoherent | main.js:120-137 | any session of inputs keeps the page coherent |
| MainPageTraces.ErrorFlagNeverRaised | main.js:93 | from the initial page, `errorVisible` is false after any session |
| MainPageTraces.StepRecord | main.js:77-83 | one input replaces the record exactly when its zip is valid and its response has a `weather` entry |
| MainPageTraces.RunRecord | main.js:73-88 | the record after a session equals the last record a usable input would build, replaying inputs one by one |
| MainPageTraces.LastRecordWithoutUsable | main.js:80-83 | with no usable input in a session the starting record survives |
| MainPageTraces.LastRecordIsLastUsable | main.js:45-51 | the record is the one built from the usable input after which no input is usable |
| MainPageTraces.ErrorBesideStaleContent | main.js:79-83 | a successful lookup followed by a provider error leaves the content visible, `errorVisible` false and the error element shown |
| MainPageTraces.RecordFromLastUsableInput | main.js:45-51 | after any session the record is the one built from the last usable response, or the starting record if there was none: never a mix of two responses |
| MvcPage.Weather.constructor | mvc-main.js:6-11 | a new model has empty city, condition and icon, temperature 0, and no `currentConditions` |
| MvcPage.Weather.SetWeather | mvc-main.js:13-18 | copies exactly city, temperature, currentCondition and currentIcon from the argument; `currentConditions` stays |
| MvcPage.Weather.SetCity | mvc-main.js:20-22 | `getCity` then returns the value set; no other field changes |
| MvcPage.Weather.GetCity | mvc-main.js:24-26 | returns the city field |
| MvcPage.Weather.SetTemperture | mvc-main.js:28-30 | `getTemperture` then returns the value set; no other field changes |
| MvcPage.Weather.GetTemperture | mvc-main.js:32-34 | returns the temperature field |
| MvcPage.Weather.SetCurrentConditions | mvc-main.js:36-38 | writes the separate field `currentConditions`; `currentCondition` and every other field stay |
| MvcPage.Weather.GetCurrentConditions | mvc-main.js:40-42 | returns `currentIcon`, not the condition |
| MvcPage.Weather.SetCurrentIcon | mvc-main.js:44-46 | `getCurrentIcon` then returns the value set; no other field changes |
| MvcPage.Weather.GetCurrentIcon | mvc-main.js:48-50 | returns the icon field |
| MvcPage.WeatherView.constructor | mvc-main.js:104-113 | the targets start empty |
| MvcPage.WeatherView.DisplayWeather | mvc-main.js:119-124 | the three text targets receive `getCity()`, `getCurrentConditions()` (the icon code) and `getTemperture()`; the image receives the icon URL of `getCurrentIcon()` |
| MvcPage.WeatherController.constructor | mvc-main.js:56-61 | the controller holds the given model and view |
| MvcPage.WeatherController.GetWeatherByZipcode | mvc-main.js:63-72 | only a response with a body yields data; every failure is caught and yields `undefined` |
| MvcPage.WeatherController.HandleZipInputChange | mvc-main.js:83-99 | invalid zip: model and view unchanged; valid zip with a `weather` entry: the model's four fields come from the response and the view shows city, icon code (as condition), temperature and icon URL; otherwise the handler throws and nothing changes |

## Left out

- The request itself (`axios.get`, the API URL and key): its outcome is a parameter.
- `debounce` (main.js:64-70): timer scheduling; each modelled input event is the trailing one.
- The out-of-order completion of overlapping requests: every input is handled to completion before the next.
- JavaScript's `isNaN` on strings: beyond "digit strings are numbers" it is left open, so values such as "-1234" or "12.34" are neither accepted nor refused by the model.
- Number-to-text conversion of the temperature: a text target holds the number itself.
- The browser's handling of the background value: the target records the value assigned, `undefined` included; that a browser ignores `undefined` and the non-colour "rainbow" is not modelled.
- MainPage.BackgroundColor: does not model JavaScript object lookup of inherited names (a condition such as "toString" finds a property of `Object.prototype`).
- Response bodies are assumed to have the documented shape (`name`, `main.temp`, `weather` entries with `description` and `icon`); malformed bodies, which throw at `data.main` or put `undefined` into the record, are not modelled.
- A provider error body without a `message`: the model's error message is always a string.
- DOM construction (`renderElement`, `setMiscAttributes`, `init`, `bindInputChange`) and CSS, and the `console.log` of the MVC fetch error.
