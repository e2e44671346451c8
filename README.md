# WeatherApp location cascade and weather search, modelled in Dafny

This project models the logic of the WeatherApp front end. The app is a
browser page that picks a place and shows its current weather.

- `Location` (location_picker.dfy) models the `LocationPicker` component.
  It has three cascading drop-downs, fed by the geo-battuta directory:
  country, region, city. The component's state is the class
  `Location.LocationPicker`. Each effect body and each `onChange` handler is
  one of its methods, and each method hands back the `Effect` its state change
  sets off: a region fetch, a city fetch, or the location update. When that
  comes from React is modelled by pure functions. An effect re-runs only when
  its dependency changes (`RegionEffect`, `CityEffect`, `LocationEffect`), and
  then fetches only if its guard passes (`ShouldFetchRegions`,
  `ShouldFetchCities`). Responses arrive as text wrapped in a JSONP envelope
  `?( … );`. `StripEnvelope` models the two anchored `replace` calls that
  remove it.
- `Weather` (weather_app.dfy) models the `WeatherApp` component. Pure
  functions shape the three provider responses:
  - `CountryList`: the first.org country directory becomes `{code, name}`
    options.
  - `GetCoord`: the OpenWeatherMap geocoder's result array becomes the first
    match's coordinates, or "City not found".
  - `GetWeatherData`: the weather payload becomes a fully populated record,
    with rain 0 unless rain is reported.

  The class `Weather.WeatherApp` holds the component's state. Its methods are
  the country loader and the two-step search, which replaces `fields` only
  when both steps succeed.
- `Wrappers` (wrappers.dfy) holds `Option` and `Result`.

A network response is an input. `Weather.Response<T>` is either `Parsed(body)`
or `Failed`, where `Failed` means the request was rejected or the body was not
JSON. The geocoder and the weather endpoint are function parameters of the
search. So the statement "the weather endpoint is not asked when geocoding
fails" becomes "the outcome is the same for any two weather endpoints". A
missing nested object, or an empty `weather` array, makes the source read a
property of `undefined`. The resulting TypeError is modelled as
`MissingProperty`. The same happens when the geocoder answers with an object
instead of an array.

The code does none of the following, and neither does the model:

- Clear the selections below a country or region when it changes.
- Discard stale responses with a generation counter.
- Normalise the geocoder input.
- Report an "incomplete selection" error.
- Clear the previous weather record when a search fails; it is kept.

The city is fixed at "Bhopal": its text input is commented out in the source, so
the model has no city setter. The state and the country change through
`SelectState` and `SelectCountry`.

The city drop-down field `label` is called `text` in `CityOption`, because
`label` is a Dafny keyword.

One consequence of the dependency rule shows in `OnCitiesLoaded`'s contract.
When `selectedCityIndex` is already `Some(0)`, the reset to 0 sets off no
location update. The location then keeps the city chosen from the previous
list.

## Model

| member | source | states |
|---|---|---|
| Location.StripEnvelope | frontend/src/components/LocationPicker.jsx:21 | stripping the envelope never makes the text longer |
| Location.StripEnvelopeKeepsInterior | frontend/src/components/LocationPicker.jsx:21 | the input equals the result with `?(` restored only if it was at the very start, and `);` restored only if it ended what was left; no other character is changed or moved |
| Location.StripEnvelopeOfWrapped | frontend/src/components/LocationPicker.jsx:36 | unwrapping `?(` + body + `);` gives back exactly body, for every body |
| Location.StripEnvelopeOfBareArray | frontend/src/components/LocationPicker.jsx:51 | a JSON array sent without an envelope passes through unchanged |
| Location.LabelCities | frontend/src/components/LocationPicker.jsx:52 | one option per city, in order; option i is labelled with city i's name and numbered from the given start |
| Location.CityOptions | frontend/src/components/LocationPicker.jsx:52 | the options have the response's length; option i has label `json[i].city` and value i |
| Location.CityOptionIndexesItsCity | frontend/src/components/LocationPicker.jsx:116-118 | every option's value is an in-bounds index into the city list, and the city at that index has the option's label as its name |
| Location.RegionEffect | frontend/src/components/LocationPicker.jsx:29-42 | a region fetch is set off if and only if the country changed to a non-empty value, and it is for the country now selected; its guard `ShouldFetchRegions` is the test at line 30 |
| Location.CityEffect | frontend/src/components/LocationPicker.jsx:44-56 | a city fetch is set off if and only if the region changed to a non-empty value while a country is selected, and it is for the current (country, region); an unchanged region sets off none; its guard `ShouldFetchCities` is the test at line 45 |
| Location.LocationEffect | frontend/src/components/LocationPicker.jsx:58-63 | the location update is set off exactly when the city index changes |
| Location.CommittedLocation | frontend/src/components/LocationPicker.jsx:59-62 | the location changes only when the index is set and names an existing entry |
| Location.PickedOptionBecomesLocation | frontend/src/components/LocationPicker.jsx:59-62 | choosing the option at position k commits city k as the location, and that city is the one the option labels |
| Location.LocationPicker.constructor | frontend/src/components/LocationPicker.jsx:6-13 | empty lists, empty country and region, no city index, no location |
| Location.LocationPicker.OnCountriesLoaded | frontend/src/components/LocationPicker.jsx:20-26 | `countries` becomes the response; `selectedCountry` becomes `json[0].code` when the response is non-empty and is kept otherwise; nothing else changes, so the region is kept and no city fetch follows; the region effect follows the dependency rule |
| Location.LocationPicker.OnRegionsLoaded | frontend/src/components/LocationPicker.jsx:35-41 | `regions` becomes the response; `selectedRegion` becomes `json[0].region` when non-empty, else is kept; nothing else changes; the city effect follows the dependency rule |
| Location.LocationPicker.OnCitiesLoaded | frontend/src/components/LocationPicker.jsx:50-55 | `cities` has the response's length with entry i = {label `json[i].city`, value i}; `currentCities` is the response; the index becomes 0 even for an empty response; the location update is set off only if the index was not already 0 |
| Location.LocationPicker.OnCityIndexChanged | frontend/src/components/LocationPicker.jsx:58-63 | `location` becomes `currentCities[selectedCityIndex]` when the index is set and in bounds; otherwise it is unchanged |
| Location.LocationPicker.SelectCountry | frontend/src/components/LocationPicker.jsx:75 | the chosen option's code becomes the country; only that field changes, so the region is kept and a country change alone sets off no city fetch |
| Location.LocationPicker.SelectRegion | frontend/src/components/LocationPicker.jsx:93 | the chosen option's region becomes the region; only that field changes |
| Location.LocationPicker.SelectCity | frontend/src/components/LocationPicker.jsx:113 | picking option k sets the index to k, which is within the bounds of `currentCities` |
| Weather.CountryList | frontend/src/WeatherApp.jsx:47-50 | one option per directory entry, in entry order, with code = key and name = `value.country` |
| Weather.CountryCodesAreKeys | frontend/src/WeatherApp.jsx:47-50 | the codes offered are exactly the directory's keys, and they are pairwise distinct |
| Weather.GetCoord | frontend/src/WeatherApp.jsx:65-67 | "City not found" exactly on an empty match array; success exactly on a non-empty array, with the first match's lat/lon; a failed request is a request failure; a non-array payload is a TypeError |
| Weather.GetCoordIgnoresLaterMatches | frontend/src/WeatherApp.jsx:67 | matches after the first do not affect the result |
| Weather.GetWeatherData | frontend/src/WeatherApp.jsx:74-91 | a record exactly when every object read is present; then every field is copied from its payload path, and `rain1h` is the reported `rain["1h"]` or 0; otherwise a request failure or a TypeError |
| Weather.RainOrZero | frontend/src/WeatherApp.jsx:90 | the falsy-to-zero default yields the reported `rain["1h"]` whenever one is reported, and 0 otherwise; a non-zero result is the reported value |
| Weather.NoRainReportedIsZero | frontend/src/WeatherApp.jsx:90 | without a `rain` object or its `"1h"` member, `rain1h` is 0 |
| Weather.Search | frontend/src/WeatherApp.jsx:96-97 | a record comes only from a successful geocode followed by a complete weather payload at the coordinates found, and is copied from that payload; the search fails with "City not found" exactly when the geocoder matched nothing |
| Weather.SearchSucceedsIffBothSteps | frontend/src/WeatherApp.jsx:94-98 | a search succeeds if and only if geocoding and then the weather step at the coordinates found both succeed; once geocoding succeeds, the search's outcome is the weather step's, its record or its error |
| Weather.GeocodeFailureSkipsWeather | frontend/src/WeatherApp.jsx:96-97 | when geocoding fails the search fails with its error, whatever the weather endpoint would answer |
| Weather.NoMatchIsCityNotFound | frontend/src/WeatherApp.jsx:66 | a worked instance of `Search`'s contract: a geocoder that matches nothing makes the search fail with "City not found" |
| Weather.WeatherApp.constructor | frontend/src/WeatherApp.jsx:4-24 | the selection is Bhopal, Madhya Pradesh, IN; no countries; all display fields empty or zero |
| Weather.WeatherApp.GetCountries | frontend/src/WeatherApp.jsx:28-55 | on a directory with a `data` object, `countries` becomes its mapping; on any failure the error is caught and `countries` is unchanged |
| Weather.WeatherApp.SelectCountry | frontend/src/WeatherApp.jsx:131 | the chosen option ("Select Country" or a loaded code) becomes the country code; only that field changes |
| Weather.WeatherApp.SelectState | frontend/src/WeatherApp.jsx:143-150 | one of the fixed state options becomes the state code; only that field changes |
| Weather.WeatherApp.HandleSearch | frontend/src/WeatherApp.jsx:94-102 | the geocoder is asked for the current selection; the weather endpoint is asked, at the coordinates found, if and only if geocoding succeeded; `fields` becomes the record only if both steps succeed, and is unchanged otherwise, with the error reported |

## Left out

- Network I/O is not modelled: `fetch`, `res.text()`, `res.json()`, request headers, URLs and API keys. Responses are inputs to the handlers.
- `JSON.parse` is a foreign call. The location handlers take the parsed array. A rejected fetch or a failed parse in these handlers leaves an unhandled rejection and no state change, so it corresponds to no handler being called.
- The location handlers assume the parsed value is an array whose entries have the fields read. Any other JSON shape is not modelled. For the geocoder, only arrays and non-array objects are modelled.
- JavaScript's `undefined` leaf values are not modelled. Every leaf field that is read (`code`, `region`, `city`, `value.country`, `data.name`, the numbers) is present. Only the nested objects of the weather payload may be missing.
- Numbers are `real`. The Kelvin to Celsius display `(temp - 273.15).toFixed(1)` is floating-point formatting and is not modelled. Neither is a NaN rain reading, which the source would also turn into 0.
- React's scheduling is not modelled: state batching, when effects run, and the interleaving of in-flight responses. Each method returns the effect it sets off, and the caller runs it. The source has no request token, so no stale-response rule is modelled.
- The mount-time effects are not modelled: the countries fetch in both components, and the region, city and location effects, whose guards fail on the initial state.
- Rendering, styling, `alert` and `console` are not modelled. The alert's content is returned as a `SearchError`.
- `frontend/src/App.jsx` only composes components and holds no logic.
- `Weather.WeatherApp.GetCountries`: the order of `Object.entries` is taken as the order of the payload's entry sequence. JavaScript lists integer-like keys first, and the model does not capture that.
