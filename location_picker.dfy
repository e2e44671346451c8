/** The location picker: three cascading drop-downs (country, region, city) fed by
    the geo-battuta directory. The component's state is a class; its effect bodies
    and change handlers are the methods. A network response is an input to the
    handler that consumes it, already parsed. Each method gives back the effect
    its state change sets off, so that the caller can issue the fetch. */
module Location {
  import opened Wrappers

  // ---------------------------------------------------------------------------
  // The JSONP envelope
  // ---------------------------------------------------------------------------

  /** geo-battuta answers a `callback=?` request with `?(` + JSON + `);`. */
  const Open: string := "?("
  const Close: string := ");"

  predicate EndsWith(s: string, suffix: string) {
    |suffix| <= |s| && s[|s| - |suffix|..] == suffix
  }

  /** The two anchored replacements applied to every response text: first a
      leading `?(` is dropped, then a trailing `);` of what is left. */
  function StripEnvelope(s: string): (r: string)
    ensures |r| <= |s|
  {
    var t := if Open <= s then s[|Open|..] else s;
    if EndsWith(t, Close) then t[..|t| - |Close|] else t
  }

  /** The result is the input with at most `?(` cut from the very start and
      `);` cut from the very end; every other character is kept, in order. */
  lemma StripEnvelopeKeepsInterior(s: string)
    ensures Open <= s && EndsWith(s[|Open|..], Close) ==> s == Open + StripEnvelope(s) + Close
    ensures Open <= s && !EndsWith(s[|Open|..], Close) ==> s == Open + StripEnvelope(s)
    ensures !(Open <= s) && EndsWith(s, Close) ==> s == StripEnvelope(s) + Close
    ensures !(Open <= s) && !EndsWith(s, Close) ==> s == StripEnvelope(s)
  {
  }

  /** Unwrapping undoes the envelope, whatever the JSON inside it. */
  lemma StripEnvelopeOfWrapped(body: string)
    ensures StripEnvelope(Open + body + Close) == body
  {
  }

  /** A bare JSON array, sent without envelope, passes through unchanged. */
  lemma StripEnvelopeOfBareArray(s: string)
    requires |s| > 0 && s[0] == '[' && s[|s| - 1] == ']'
    ensures StripEnvelope(s) == s
  {
  }

  // ---------------------------------------------------------------------------
  // Directory records and city options
  // ---------------------------------------------------------------------------

  /** A country as geo-battuta lists it. */
  datatype Country = Country(name: string, code: string)

  /** A region of a country; `region` is both its name and its key. */
  datatype Region = Region(region: string, country: string)

  /** A city; latitude and longitude are kept as the provider's opaque text. */
  datatype City = City(city: string, region: string, country: string, latitude: string, longitude: string)

  /** An entry of the city drop-down: its label (the city's name; `label` is a Dafny keyword)
      and its value (the city's position in the response). */
  datatype CityOption = CityOption(text: string, value: nat)

  /** The options for `json`, numbered from `first` on. */
  function LabelCities(json: seq<City>, first: nat): (r: seq<CityOption>)
    ensures |r| == |json|
    ensures forall i :: 0 <= i < |json| ==> r[i] == CityOption(json[i].city, first + i)
    decreases |json|
  {
    if json == [] then [] else [CityOption(json[0].city, first)] + LabelCities(json[1..], first + 1)
  }

  /** One option per city, in order, labelled with its name and valued with its position. */
  function CityOptions(json: seq<City>): (r: seq<CityOption>)
    ensures |r| == |json|
    ensures forall i :: 0 <= i < |json| ==> r[i].text == json[i].city && r[i].value == i
  {
    LabelCities(json, 0)
  }

  /** Every option carries the index of the city it names, so picking one
      yields an index within the bounds of the list it came from. */
  lemma CityOptionIndexesItsCity(json: seq<City>, k: nat)
    requires k < |CityOptions(json)|
    ensures CityOptions(json)[k].value < |json|
    ensures json[CityOptions(json)[k].value].city == CityOptions(json)[k].text
  {
  }

  // ---------------------------------------------------------------------------
  // Which effect a state change sets off
  // ---------------------------------------------------------------------------

  /** What follows a state change: a region fetch, a city fetch, or the
      location update that watches the city index. */
  datatype Effect = FetchRegions(country: string) | FetchCities(country: string, region: string) | UpdateLocation

  /** The guard of the region effect: a country is selected (the empty
      string is the only string JavaScript treats as false). */
  predicate ShouldFetchRegions(selectedCountry: string) {
    selectedCountry != ""
  }

  /** The guard of the city effect: both a region and a country are selected. */
  predicate ShouldFetchCities(selectedRegion: string, selectedCountry: string) {
    selectedRegion != "" && selectedCountry != ""
  }

  /** The region effect depends on `selectedCountry`: it runs when that value
      changes from `before` to `after` and fetches only past its guard. */
  function RegionEffect(before: string, after: string): (e: Option<Effect>)
    ensures after == "" ==> e == None
    ensures before == after ==> e == None
    ensures e != None <==> before != after && after != ""
    ensures e != None ==> e == Some(FetchRegions(after))
  {
    if before != after && ShouldFetchRegions(after) then Some(FetchRegions(after)) else None
  }

  /** The city effect depends on `selectedRegion` alone; when it runs it reads
      the country selected at that moment. */
  function CityEffect(regionBefore: string, regionAfter: string, country: string): (e: Option<Effect>)
    ensures regionAfter == "" || country == "" ==> e == None
    ensures regionBefore == regionAfter ==> e == None
    ensures e != None <==> regionBefore != regionAfter && regionAfter != "" && country != ""
    ensures e != None ==> e == Some(FetchCities(country, regionAfter))
  {
    if regionBefore != regionAfter && ShouldFetchCities(regionAfter, country) then
      Some(FetchCities(country, regionAfter))
    else
      None
  }

  /** The location effect depends on `selectedCityIndex` and runs whenever it changes. */
  function LocationEffect(before: Option<int>, after: Option<int>): (e: Option<Effect>)
    ensures e != None <==> before != after
    ensures e != None ==> e == Some(UpdateLocation)
  {
    if before != after then Some(UpdateLocation) else None
  }

  /** The body of the location effect: the city at `index` becomes the location
      when the index is set and names an entry; otherwise nothing changes. */
  function CommittedLocation(current: seq<City>, index: Option<int>, location: Option<City>): (r: Option<City>)
    ensures r != location ==> index != None && 0 <= index.value < |current|
  {
    if index != None && 0 <= index.value < |current| then Some(current[index.value]) else location
  }

  /** Picking the k-th city option makes the k-th city the location, and that
      city carries the option's label as its name. */
  lemma PickedOptionBecomesLocation(json: seq<City>, k: nat, location: Option<City>)
    requires k < |json|
    ensures CommittedLocation(json, Some(CityOptions(json)[k].value), location) == Some(json[k])
    ensures json[k].city == CityOptions(json)[k].text
  {
  }

  // ---------------------------------------------------------------------------
  // The component's state
  // ---------------------------------------------------------------------------

  class LocationPicker {
    var countries: seq<Country>
    var regions: seq<Region>
    var cities: seq<CityOption>
    var currentCities: seq<City>
    var selectedCountry: string
    var selectedRegion: string
    var selectedCityIndex: Option<int>
    var location: Option<City>

    /** The city options always describe the cities last loaded: both are set together. */
    ghost predicate Valid()
      reads this
    {
      cities == CityOptions(currentCities)
    }

    /** The state on mount: empty lists, no selection, no location. */
    constructor ()
      ensures Valid()
      ensures countries == [] && regions == [] && cities == [] && currentCities == []
      ensures selectedCountry == "" && selectedRegion == ""
      ensures selectedCityIndex == None && location == None
    {
      countries, regions, cities, currentCities := [], [], [], [];
      selectedCountry, selectedRegion := "", "";
      selectedCityIndex, location := None, None;
    }

    /** The countries response arrived: the list is replaced and its first
        country becomes the selection, unless the list is empty. */
    method OnCountriesLoaded(json: seq<Country>) returns (next: Option<Effect>)
      requires Valid()
      modifies this`countries, this`selectedCountry
      ensures Valid()
      ensures countries == json
      ensures selectedCountry == if |json| > 0 then json[0].code else old(selectedCountry)
      ensures next == RegionEffect(old(selectedCountry), selectedCountry)
      ensures selectedRegion == old(selectedRegion)
      ensures CityEffect(old(selectedRegion), selectedRegion, selectedCountry) == None
    {
      var before := selectedCountry;
      countries := json;
      if |json| > 0 {
        selectedCountry := json[0].code;
      }
      next := RegionEffect(before, selectedCountry);
    }

    /** The regions response arrived: the list is replaced and its first region
        becomes the selection, unless the list is empty. */
    method OnRegionsLoaded(json: seq<Region>) returns (next: Option<Effect>)
      requires Valid()
      modifies this`regions, this`selectedRegion
      ensures Valid()
      ensures regions == json
      ensures selectedRegion == if |json| > 0 then json[0].region else old(selectedRegion)
      ensures next == CityEffect(old(selectedRegion), selectedRegion, selectedCountry)
    {
      var before := selectedRegion;
      regions := json;
      if |json| > 0 {
        selectedRegion := json[0].region;
      }
      next := CityEffect(before, selectedRegion, selectedCountry);
    }

    /** The cities response arrived: the options are rebuilt, the raw list is
        kept, and the index is reset to 0 even for an empty response. */
    method OnCitiesLoaded(json: seq<City>) returns (next: Option<Effect>)
      requires Valid()
      modifies this`cities, this`currentCities, this`selectedCityIndex
      ensures Valid()
      ensures currentCities == json
      ensures |cities| == |json|
      ensures forall i :: 0 <= i < |json| ==> cities[i] == CityOption(json[i].city, i)
      ensures selectedCityIndex == Some(0)
      ensures next == LocationEffect(old(selectedCityIndex), Some(0))
    {
      var before := selectedCityIndex;
      cities := CityOptions(json);
      currentCities := json;
      selectedCityIndex := Some(0);
      next := LocationEffect(before, selectedCityIndex);
    }

    /** The location effect ran: commit the selected city, if there is one. */
    method OnCityIndexChanged()
      requires Valid()
      modifies this`location
      ensures Valid()
      ensures location == CommittedLocation(currentCities, selectedCityIndex, old(location))
      ensures old(location) != location ==> location == Some(currentCities[selectedCityIndex.value])
    {
      if selectedCityIndex != None && 0 <= selectedCityIndex.value < |currentCities| {
        location := Some(currentCities[selectedCityIndex.value]);
      }
    }

    /** The user picked the k-th country of the drop-down. The region stays as
        it was, so the country change alone sets off no city fetch. */
    method SelectCountry(k: nat) returns (next: Option<Effect>)
      requires Valid() && k < |countries|
      modifies this`selectedCountry
      ensures Valid()
      ensures selectedCountry == countries[k].code
      ensures next == RegionEffect(old(selectedCountry), selectedCountry)
      ensures selectedRegion == old(selectedRegion)
      ensures CityEffect(old(selectedRegion), selectedRegion, selectedCountry) == None
    {
      var before := selectedCountry;
      selectedCountry := countries[k].code;
      next := RegionEffect(before, selectedCountry);
    }

    /** The user picked the k-th region of the drop-down. */
    method SelectRegion(k: nat) returns (next: Option<Effect>)
      requires Valid() && k < |regions|
      modifies this`selectedRegion
      ensures Valid()
      ensures selectedRegion == regions[k].region
      ensures next == CityEffect(old(selectedRegion), selectedRegion, selectedCountry)
    {
      var before := selectedRegion;
      selectedRegion := regions[k].region;
      next := CityEffect(before, selectedRegion, selectedCountry);
    }

    /** The user picked the k-th city of the drop-down: the option's value is
        its own position, always an index into the cities last loaded. */
    method SelectCity(k: nat) returns (next: Option<Effect>)
      requires Valid() && k < |cities|
      modifies this`selectedCityIndex
      ensures Valid()
      ensures selectedCityIndex == Some(k) && k < |currentCities|
      ensures next == LocationEffect(old(selectedCityIndex), selectedCityIndex)
    {
      var before := selectedCityIndex;
      selectedCityIndex := Some(cities[k].value);
      next := LocationEffect(before, selectedCityIndex);
    }
  }
}
