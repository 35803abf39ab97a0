/** Location lookup of src/services/maps.ts: the query it builds and the Places-then-Geocoding
    fallback, with the two HTTP APIs as parameters. */
module Maps {
  import opened Wrappers
  import opened Strings
  import opened Errors
  import opened Types

  /** How much of `geometry.location` a Geocoding result carries. */
  datatype Geometry = NoGeometry | NoLocation | WithLocation

  /** One Places candidate or one Geocoding result (`formatted_address`, `place_id`, `geometry`). */
  datatype Place = Place(formattedAddress: Option<string>, placeId: Option<string>, geometry: Geometry)

  /** An API call: how the request ended, and on success the list the response held
      (`candidates` or `results`, `None` when the field is absent). */
  type PlaceApi = string -> Completion<Option<seq<Place>>>

  const Country := "Argentina"
  const PlacesErrorCode := "PLACES_API_ERROR"
  const GeocodingErrorCode := "GEOCODING_API_ERROR"

  /** The `TypeError`s of reading `result.geometry.location` and then `location.lat`. */
  const MissingGeometryMessage := "Cannot read properties of undefined (reading 'location')"
  const MissingLocationMessage := "Cannot read properties of undefined (reading 'lat')"

  /** The location kept for a place (coordinates are left out). */
  function LocationOf(p: Place): LocationData {
    LocationData(p.formattedAddress, p.placeId)
  }

  /** The first element of a list when it exists (`list && list.length > 0`). */
  predicate HasFirst(list: Option<seq<Place>>) {
    list.Some? && |list.value| > 0
  }

  /** `searchPlaces`: the first candidate, or null; a failed request is rethrown wrapped. */
  function SearchPlaces(query: string, places: PlaceApi): (r: Completion<Option<LocationData>>)
    ensures places(query).Threw? <==> r.Threw?
    ensures r.Threw? ==>
      var e := places(query).error;
      r.error == CreateAppError("Error en Places API: " + GetErrorMessage(e), Some(PlacesErrorCode), Some(e))
    ensures places(query).Returned? ==>
      r == Returned(if HasFirst(places(query).value) then Some(LocationOf(places(query).value.value[0])) else None)
  {
    match places(query)
    case Threw(e) => Threw(CreateAppError("Error en Places API: " + GetErrorMessage(e), Some(PlacesErrorCode), Some(e)))
    case Returned(candidates) =>
      if HasFirst(candidates) then Returned(Some(LocationOf(candidates.value[0]))) else Returned(None)
  }

  /** The failure of `geocodeAddress` for an underlying error `e`. */
  function GeocodingError(e: Thrown): Thrown {
    CreateAppError("Error en Geocoding API: " + GetErrorMessage(e), Some(GeocodingErrorCode), Some(e))
  }

  /** `geocodeAddress`: the first result, or null. A first result without `geometry` or without
      `geometry.location` makes the property read throw, and that error is wrapped like a failed request. */
  function GeocodeAddress(address: string, geocode: PlaceApi): (r: Completion<Option<LocationData>>)
    ensures geocode(address).Threw? ==> r == Threw(GeocodingError(geocode(address).error))
    ensures geocode(address).Returned? && !HasFirst(geocode(address).value) ==> r == Returned(None)
    ensures geocode(address).Returned? && HasFirst(geocode(address).value) ==>
      var first := geocode(address).value.value[0];
      match first.geometry
      case NoGeometry => r == Threw(GeocodingError(PlainError(MissingGeometryMessage)))
      case NoLocation => r == Threw(GeocodingError(PlainError(MissingLocationMessage)))
      case WithLocation => r == Returned(Some(LocationOf(first)))
    ensures r.Threw? ==> IsAppError(r.error) && r.error.code == Some(GeocodingErrorCode)
  {
    match geocode(address)
    case Threw(e) => Threw(GeocodingError(e))
    case Returned(results) =>
      if !HasFirst(results) then Returned(None)
      else
        var first := results.value[0];
        match first.geometry
        case NoGeometry => Threw(GeocodingError(PlainError(MissingGeometryMessage)))
        case NoLocation => Threw(GeocodingError(PlainError(MissingLocationMessage)))
        case WithLocation => Returned(Some(LocationOf(first)))
  }

  /** The parts of the query: the name, the address if given (otherwise the location if any), and the country. */
  function LocationParts(company: Company, address: Option<string>): seq<string> {
    if Truthy(address) then [company.name, address.value, Country]
    else if Truthy(company.location) then [company.name, company.location.value, Country]
    else [company.name, Country]
  }

  /** `buildLocationQuery`: the parts joined by single spaces. */
  function LocationQuery(company: Company, address: Option<string>): (q: string)
    ensures Truthy(address) ==> q == company.name + " " + address.value + " " + Country
    ensures !Truthy(address) && Truthy(company.location) ==> q == company.name + " " + company.location.value + " " + Country
    ensures !Truthy(address) && !Truthy(company.location) ==> q == company.name + " " + Country
  {
    var middle := if Truthy(address) then address.value else if Truthy(company.location) then company.location.value else "";
    JoinFew(company.name, middle, Country, " ");
    JoinFew(company.name, Country, "", " ");
    Join(LocationParts(company, address), " ")
  }

  /** The query always starts with the company name and ends with the country. */
  lemma LocationQueryShape(company: Company, address: Option<string>)
    ensures var q := LocationQuery(company, address);
      && StartsWith(q, company.name + " ")
      && |q| >= |company.name| + 1 + |Country|
      && q[|q| - |Country| - 1..] == " " + Country
  {
    var q := LocationQuery(company, address);
    var n := company.name + " ";
    assert q[..|n|] == n;
  }

  /** `buildLocationQuery` with its `parts` array. */
  method BuildLocationQuery(company: Company, address: Option<string>) returns (q: string)
    ensures q == LocationQuery(company, address)
  {
    var parts: seq<string> := [];
    parts := parts + [company.name];
    if address.Some? && address.value != "" {
      parts := parts + [address.value];
    } else if company.location.Some? && company.location.value != "" {
      parts := parts + [company.location.value];
    }
    parts := parts + [Country];
    assert parts == LocationParts(company, address);
    q := Join(parts, " ");
  }

  /** `findLocation`: no key gives null; otherwise Places, then Geocoding when Places finds nothing;
      any error gives null. */
  function FindLocation(apiKey: string, company: Company, address: Option<string>, places: PlaceApi, geocode: PlaceApi)
    : (r: Option<LocationData>)
    ensures apiKey == "" ==> r == None
    ensures apiKey != "" ==>
      var query := LocationQuery(company, address);
      match SearchPlaces(query, places)
      case Threw(_) => r == None
      case Returned(Some(found)) => r == Some(found)
      case Returned(None) => r == (if GeocodeAddress(query, geocode).Threw? then None else GeocodeAddress(query, geocode).value)
  {
    if apiKey == "" then None
    else
      var query := LocationQuery(company, address);
      match SearchPlaces(query, places)
      case Threw(_) => None
      case Returned(Some(found)) => Some(found)
      case Returned(None) =>
        match GeocodeAddress(query, geocode)
        case Threw(_) => None
        case Returned(located) => located
  }

  /** Without a key no request is made: the result does not depend on either API. */
  lemma NoKeyNoRequest(company: Company, address: Option<string>, places1: PlaceApi, geocode1: PlaceApi, places2: PlaceApi, geocode2: PlaceApi)
    ensures FindLocation("", company, address, places1, geocode1) == FindLocation("", company, address, places2, geocode2) == None
  {
  }

  /** A Places candidate is returned as is, and Geocoding is then never consulted. */
  lemma PlacesFirst(apiKey: string, company: Company, address: Option<string>, places: PlaceApi, geocode1: PlaceApi, geocode2: PlaceApi)
    requires apiKey != ""
    requires var answer := places(LocationQuery(company, address)); answer.Returned? && HasFirst(answer.value)
    ensures var answer := places(LocationQuery(company, address));
      FindLocation(apiKey, company, address, places, geocode1) == Some(LocationOf(answer.value.value[0]))
    ensures FindLocation(apiKey, company, address, places, geocode1) == FindLocation(apiKey, company, address, places, geocode2)
  {
  }

  /** Geocoding is consulted only when Places answers with nothing: a failed Places request
      gives null whatever Geocoding would say. */
  lemma PlacesErrorIsFinal(apiKey: string, company: Company, address: Option<string>, places: PlaceApi, geocode: PlaceApi)
    requires places(LocationQuery(company, address)).Threw?
    ensures FindLocation(apiKey, company, address, places, geocode) == None
  {
  }

  /** Only the first candidate or result counts: lists with the same head give the same location. */
  lemma FirstCandidateOnly(query: string, api1: PlaceApi, api2: PlaceApi)
    requires api1(query).Returned? && api2(query).Returned?
    requires HasFirst(api1(query).value) && HasFirst(api2(query).value)
    requires api1(query).value.value[0] == api2(query).value.value[0]
    ensures SearchPlaces(query, api1) == SearchPlaces(query, api2)
    ensures GeocodeAddress(query, api1) == GeocodeAddress(query, api2)
  {
  }

  /** An error anywhere in the lookup ends in null rather than a throw. */
  lemma ErrorsGiveNull(apiKey: string, company: Company, address: Option<string>, places: PlaceApi, geocode: PlaceApi)
    requires var query := LocationQuery(company, address);
      || places(query).Threw?
      || (places(query).Returned? && !HasFirst(places(query).value) && GeocodeAddress(query, geocode).Threw?)
    ensures FindLocation(apiKey, company, address, places, geocode) == None
  {
  }

  /** `getPlaceDetails`: the `result` field of the response, null without a key or on error. */
  function GetPlaceDetails<D>(apiKey: string, placeId: string, details: string -> Completion<Option<D>>): (r: Option<D>)
    ensures apiKey == "" ==> r == None
    ensures apiKey != "" && details(placeId).Threw? ==> r == None
    ensures apiKey != "" && details(placeId).Returned? ==> r == details(placeId).value
  {
    if apiKey == "" then None
    else match details(placeId)
      case Threw(_) => None
      case Returned(result) => result
  }

  lemma NoKeyNoDetailsRequest<D>(placeId: string, details1: string -> Completion<Option<D>>, details2: string -> Completion<Option<D>>)
    ensures GetPlaceDetails("", placeId, details1) == GetPlaceDetails("", placeId, details2) == None
  {
  }

  /** The key the service reads from its configuration: `CONFIG.googleMaps?.apiKey || ''`. */
  function ConfiguredKey(configured: Option<string>): (k: string)
    ensures Truthy(configured) ==> k == configured.value
    ensures !Truthy(configured) ==> k == ""
  {
    if Truthy(configured) then configured.value else ""
  }

  /** src/config.ts defines no `googleMaps` entry, so the key read is `undefined`: as configured, the
      service has no key and neither lookup consults its API. */
  lemma UnconfiguredKeyDisablesLookups<D>(company: Company, address: Option<string>, places: PlaceApi, geocode: PlaceApi,
                                          placeId: string, details: string -> Completion<Option<D>>)
    ensures ConfiguredKey(None) == ""
    ensures FindLocation(ConfiguredKey(None), company, address, places, geocode) == None
    ensures GetPlaceDetails(ConfiguredKey(None), placeId, details) == None
  {
  }
}
