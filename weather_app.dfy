/** The weather search: the selected (city, state, country) is resolved to
    coordinates by the OpenWeatherMap geocoder, then to current conditions by its
    weather endpoint, and the conditions are shown. The shaping of each response
    is a pure function over an abstract parsed payload; the component's state,
    which the country loader and the search update, is a class. */
module Weather {
  import opened Wrappers

  /** What a `fetch` followed by `res.json()` hands back: the parsed body, or a
      rejection (the request failed or the body was not JSON). */
  datatype Response<T> = Parsed(body: T) | Failed

  /** Why a search step threw; the handler shows it in an alert. */
  datatype SearchError =
    | RequestFailed    // the request was rejected or its body was not JSON
    | CityNotFound     // "City not found": the geocoder matched nothing
    | MissingProperty  // a TypeError: a property was read from `undefined`

  // ---------------------------------------------------------------------------
  // Countries
  // ---------------------------------------------------------------------------

  /** The value side of an entry of the first.org country directory. */
  datatype CountryRecord = CountryRecord(country: string, region: string)

  /** The directory's body; `data` is the object keyed by country code, given
      as its entries in the order `Object.entries` yields them, and is `None`
      when the field is missing. */
  datatype CountriesPayload = CountriesPayload(data: Option<seq<(string, CountryRecord)>>)

  /** An entry of the country drop-down. */
  datatype CountryOption = CountryOption(code: string, name: string)

  /** One option per directory entry, in entry order; the key is the code and
      the entry's `country` is the name. */
  function CountryList(entries: seq<(string, CountryRecord)>): (r: seq<CountryOption>)
    ensures |r| == |entries|
    ensures forall i :: 0 <= i < |entries| ==> r[i].code == entries[i].0 && r[i].name == entries[i].1.country
  {
    if entries == [] then []
    else [CountryOption(entries[0].0, entries[0].1.country)] + CountryList(entries[1..])
  }

  /** The keys of an object are distinct. */
  predicate DistinctKeys(entries: seq<(string, CountryRecord)>) {
    forall i, j :: 0 <= i < j < |entries| ==> entries[i].0 != entries[j].0
  }

  /** The codes offered are exactly the directory's keys, each once, so the
      drop-down's `key={country.code}` is unique. */
  lemma {:induction false} CountryCodesAreKeys(entries: seq<(string, CountryRecord)>)
    requires DistinctKeys(entries)
    ensures (set o | o in CountryList(entries) :: o.code) == (set e | e in entries :: e.0)
    ensures forall i, j :: 0 <= i < j < |entries| ==> CountryList(entries)[i].code != CountryList(entries)[j].code
  {
    var r := CountryList(entries);
    forall i | 0 <= i < |entries|
      ensures entries[i].0 in (set o | o in r :: o.code)
    {
      assert r[i] in r;
    }
  }

  // ---------------------------------------------------------------------------
  // Geocoding
  // ---------------------------------------------------------------------------

  /** The selection the geocoder is asked about. */
  datatype GeoQuery = GeoQuery(city: string, state: string, country: string)

  /** One match of the geocoder; coordinates are opaque numbers. */
  datatype GeoMatch = GeoMatch(name: string, lat: real, lon: real, country: string, state: string)

  /** The geocoder's body: an array of matches, or an object (an error report)
      that has no `length` and no element 0. */
  datatype GeoPayload = Matches(matches: seq<GeoMatch>) | NotAnArray

  datatype Coord = Coord(lat: real, lon: real)

  /** `getCoord`'s result selection: no match is "City not found", otherwise
      the coordinates of the first match. */
  function GetCoord(response: Response<GeoPayload>): (r: Result<Coord, SearchError>)
    ensures r == Err(CityNotFound) <==> response == Parsed(Matches([]))
    ensures r.Ok? <==> response.Parsed? && response.body.Matches? && |response.body.matches| > 0
    ensures r.Ok? ==> r.value == Coord(response.body.matches[0].lat, response.body.matches[0].lon)
    ensures response.Failed? ==> r == Err(RequestFailed)
    ensures response == Parsed(NotAnArray) ==> r == Err(MissingProperty)
  {
    match response
    case Failed => Err(RequestFailed)
    case Parsed(Matches(m)) => if |m| == 0 then Err(CityNotFound) else Ok(Coord(m[0].lat, m[0].lon))
    case Parsed(NotAnArray) => Err(MissingProperty)
  }

  /** Matches after the first play no part. */
  lemma GetCoordIgnoresLaterMatches(first: GeoMatch, rest: seq<GeoMatch>)
    ensures GetCoord(Parsed(Matches([first] + rest))) == GetCoord(Parsed(Matches([first])))
  {
  }

  // ---------------------------------------------------------------------------
  // Current weather
  // ---------------------------------------------------------------------------

  datatype Sys = Sys(country: string)
  datatype Condition = Condition(main: string, description: string, icon: string)
  datatype MainBlock = MainBlock(temp: real, feelsLike: real, tempMin: real, tempMax: real, pressure: real, humidity: real)
  datatype Wind = Wind(speed: real, deg: real)
  datatype Clouds = Clouds(all: real)
  /** `rain`, with its `"1h"` member when there is one. */
  datatype Rain = Rain(oneHour: Option<real>)

  /** The weather endpoint's body; each nested object may be missing. */
  datatype WeatherPayload = WeatherPayload(
    name: string,
    sys: Option<Sys>,
    weather: Option<seq<Condition>>,
    main: Option<MainBlock>,
    wind: Option<Wind>,
    clouds: Option<Clouds>,
    rain: Option<Rain>)

  /** The record the display reads: every field is always present. */
  datatype WeatherFields = WeatherFields(
    name: string,
    country: string,
    weatherMain: string,
    weatherDescription: string,
    weatherIconCode: string,
    temp: real,
    feelsLike: real,
    tempMin: real,
    tempMax: real,
    pressure: real,
    humidity: real,
    windSpeed: real,
    windDeg: real,
    cloudiness: real,
    rain1h: real)

  /** The display before any search: empty text and zero numbers. */
  const EmptyFields := WeatherFields("", "", "", "", "", 0.0, 0.0, 0.0, 0.0, 0.0, 0.0, 0.0, 0.0, 0.0, 0.0)

  /** Every object on the paths `getWeatherData` reads is there. */
  predicate HasAllObjects(p: WeatherPayload) {
    p.sys != None && p.weather != None && |p.weather.value| > 0 &&
    p.main != None && p.wind != None && p.clouds != None
  }

  /** The rain of the last hour, when the payload reports it. */
  function ReportedRain(rain: Option<Rain>): Option<real> {
    if rain != None then rain.value.oneHour else None
  }

  /** The rain reported for the last hour, or 0 when none is reported or it
      is 0: the falsy-to-zero default gives back the reported value whenever
      there is one. */
  function RainOrZero(rain: Option<Rain>): (r: real)
    ensures r == if ReportedRain(rain) != None then ReportedRain(rain).value else 0.0
    ensures r != 0.0 ==> ReportedRain(rain) == Some(r)
  {
    if rain != None && rain.value.oneHour != None && rain.value.oneHour.value != 0.0 then
      rain.value.oneHour.value
    else
      0.0
  }

  /** `f` holds each value of `p` at the path the field is read from, and the
      reported rain, or 0 when none is reported. */
  predicate CopiedFrom(f: WeatherFields, p: WeatherPayload)
    requires HasAllObjects(p)
  {
    && f.name == p.name
    && f.country == p.sys.value.country
    && f.weatherMain == p.weather.value[0].main
    && f.weatherDescription == p.weather.value[0].description
    && f.weatherIconCode == p.weather.value[0].icon
    && f.temp == p.main.value.temp
    && f.feelsLike == p.main.value.feelsLike
    && f.tempMin == p.main.value.tempMin
    && f.tempMax == p.main.value.tempMax
    && f.pressure == p.main.value.pressure
    && f.humidity == p.main.value.humidity
    && f.windSpeed == p.wind.value.speed
    && f.windDeg == p.wind.value.deg
    && f.cloudiness == p.clouds.value.all
    && f.rain1h == (if ReportedRain(p.rain) != None then ReportedRain(p.rain).value else 0.0)
  }

  /** `getWeatherData`'s record construction: a fully populated record when
      every object it reads is there, and a TypeError otherwise. */
  function GetWeatherData(response: Response<WeatherPayload>): (r: Result<WeatherFields, SearchError>)
    ensures r.Ok? <==> response.Parsed? && HasAllObjects(response.body)
    ensures r.Ok? ==> CopiedFrom(r.value, response.body)
    ensures response.Failed? ==> r == Err(RequestFailed)
    ensures response.Parsed? && !HasAllObjects(response.body) ==> r == Err(MissingProperty)
  {
    match response
    case Failed => Err(RequestFailed)
    case Parsed(p) =>
      if !HasAllObjects(p) then Err(MissingProperty)
      else
        var w := p.weather.value[0];
        Ok(WeatherFields(
          p.name, p.sys.value.country, w.main, w.description, w.icon,
          p.main.value.temp, p.main.value.feelsLike, p.main.value.tempMin, p.main.value.tempMax,
          p.main.value.pressure, p.main.value.humidity,
          p.wind.value.speed, p.wind.value.deg, p.clouds.value.all,
          RainOrZero(p.rain)))
  }

  /** Without a `rain` object, or without its `"1h"` member, the rain is 0. */
  lemma NoRainReportedIsZero(p: WeatherPayload)
    requires HasAllObjects(p) && (p.rain == None || p.rain.value.oneHour == None)
    ensures GetWeatherData(Parsed(p)).Ok? && GetWeatherData(Parsed(p)).value.rain1h == 0.0
  {
  }

  // ---------------------------------------------------------------------------
  // The search
  // ---------------------------------------------------------------------------

  /** The two steps of `handleSearch`: geocode the query, then fetch the weather
      at the coordinates found. `geocoder` and `weather` stand for the two
      endpoints. */
  function Search(query: GeoQuery, geocoder: GeoQuery -> Response<GeoPayload>,
                  weather: Coord -> Response<WeatherPayload>): (r: Result<WeatherFields, SearchError>)
    ensures r.Ok? ==>
      && GetCoord(geocoder(query)).Ok?
      && var answer := weather(GetCoord(geocoder(query)).value);
         answer.Parsed? && HasAllObjects(answer.body) && CopiedFrom(r.value, answer.body)
    ensures r == Err(CityNotFound) <==> geocoder(query) == Parsed(Matches([]))
  {
    match GetCoord(geocoder(query))
    case Err(e) => Err(e)
    case Ok(c) => GetWeatherData(weather(c))
  }

  /** A search succeeds exactly when both steps do, and then yields the record
      shaped from the weather at the first match's coordinates. */
  lemma SearchSucceedsIffBothSteps(query: GeoQuery, geocoder: GeoQuery -> Response<GeoPayload>,
                                   weather: Coord -> Response<WeatherPayload>)
    ensures Search(query, geocoder, weather).Ok? <==>
      GetCoord(geocoder(query)).Ok? && GetWeatherData(weather(GetCoord(geocoder(query)).value)).Ok?
    ensures GetCoord(geocoder(query)).Ok? ==>
      Search(query, geocoder, weather) == GetWeatherData(weather(GetCoord(geocoder(query)).value))
  {
  }

  /** When geocoding fails, its error is the search's and the weather endpoint
      plays no part: any two weather endpoints give the same outcome. */
  lemma GeocodeFailureSkipsWeather(query: GeoQuery, geocoder: GeoQuery -> Response<GeoPayload>,
                                   weather1: Coord -> Response<WeatherPayload>,
                                   weather2: Coord -> Response<WeatherPayload>)
    requires GetCoord(geocoder(query)).Err?
    ensures Search(query, geocoder, weather1) == Search(query, geocoder, weather2)
    ensures Search(query, geocoder, weather1) == Err(GetCoord(geocoder(query)).error)
  {
  }

  /** A geocoder that matches nothing makes the search fail with "City not found". */
  lemma NoMatchIsCityNotFound(query: GeoQuery, geocoder: GeoQuery -> Response<GeoPayload>,
                              weather: Coord -> Response<WeatherPayload>)
    requires geocoder(query) == Parsed(Matches([]))
    ensures Search(query, geocoder, weather) == Err(CityNotFound)
  {
  }

  // ---------------------------------------------------------------------------
  // The component's state
  // ---------------------------------------------------------------------------

  /** The state options of the drop-down, the empty "Select State" first. */
  const StateOptions: seq<string> := ["", "Madhya Pradesh", "CA", "NY", "TX"]

  class WeatherApp {
    var city: string
    var stateCode: string
    var countryCode: string
    var countries: seq<CountryOption>
    var fields: WeatherFields

    /** The selection Bhopal, Madhya Pradesh, IN; no countries; an empty display. */
    constructor ()
      ensures city == "Bhopal" && stateCode == "Madhya Pradesh" && countryCode == "IN"
      ensures countries == [] && fields == EmptyFields
    {
      city, stateCode, countryCode := "Bhopal", "Madhya Pradesh", "IN";
      countries, fields := [], EmptyFields;
    }

    /** The query built from the current selection. */
    function Query(): GeoQuery
      reads this
    {
      GeoQuery(city, stateCode, countryCode)
    }

    /** `getCountries`: on a well-formed directory the list is replaced by its
        entries; on any failure the error is caught and the list is kept. */
    method GetCountries(response: Response<CountriesPayload>)
      modifies this`countries
      ensures countries ==
        if response.Parsed? && response.body.data != None then CountryList(response.body.data.value)
        else old(countries)
    {
      if response.Parsed? && response.body.data != None {
        countries := CountryList(response.body.data.value);
      }
    }

    /** The user picked a country option: "Select Country" or a loaded code. */
    method SelectCountry(code: string)
      requires code == "" || exists i :: 0 <= i < |countries| && countries[i].code == code
      modifies this`countryCode
      ensures countryCode == code
    {
      countryCode := code;
    }

    /** The user picked one of the fixed state options. */
    method SelectState(code: string)
      requires code in StateOptions
      modifies this`stateCode
      ensures stateCode == code
    {
      stateCode := code;
    }

    /** `handleSearch`: geocode the selection; only on success ask the weather
        endpoint, at the coordinates found; only when that succeeds too replace
        the display. A failure of either step leaves `fields` as it was and is
        reported in an alert. `weatherAt` is where the weather endpoint was
        asked, `None` when it was not. */
    method HandleSearch(geocoder: GeoQuery -> Response<GeoPayload>, weather: Coord -> Response<WeatherPayload>)
      returns (weatherAt: Option<Coord>, alert: Option<SearchError>)
      modifies this`fields
      ensures weatherAt != None <==> GetCoord(geocoder(Query())).Ok?
      ensures weatherAt != None ==> weatherAt.value == GetCoord(geocoder(Query())).value
      ensures var outcome := Search(Query(), geocoder, weather);
        && (outcome.Ok? ==> fields == outcome.value && alert == None)
        && (outcome.Err? ==> fields == old(fields) && alert == Some(outcome.error))
    {
      var coords := GetCoord(geocoder(Query()));
      if coords.Err? {
        weatherAt, alert := None, Some(coords.error);
        return;
      }
      weatherAt := Some(coords.value);
      var weatherData := GetWeatherData(weather(coords.value));
      if weatherData.Err? {
        alert := Some(weatherData.error);
        return;
      }
      fields := weatherData.value;
      alert := None;
    }
  }
}
