/** The response records of `types.py` and their `from_dict` mappers. Field values are kept
    as the decoded JSON values they were copied from: the mappers never convert or check them
    (`FlightRoute.from_dict` in particular leaves `airline`, `origin` and `destination` as raw
    dictionaries). */
module Records {

  import opened Wrappers
  import opened Json

  /** Why `cls(**data)` raised `TypeError`: required keyword parameters the dictionary lacks,
      and keys that name no parameter. */
  datatype Mismatch = Mismatch(missing: set<string>, unexpected: set<string>)

  /** Python's binding of `cls(**data)` against a constructor whose parameters are all
      required keywords: it succeeds exactly when the keys are the parameter names. */
  function BindKeywords(params: set<string>, data: map<string, Json>): (r: Result<map<string, Json>, Mismatch>)
    ensures r.Success? <==> data.Keys == params
    ensures r.Success? ==> r.value == data
    ensures r.Failure? ==> r.error.missing == params - data.Keys && r.error.unexpected == data.Keys - params
    ensures r.Failure? ==> r.error.missing != {} || r.error.unexpected != {}
  {
    if data.Keys == params then Success(data) else Failure(Mismatch(params - data.Keys, data.Keys - params))
  }

  // ---------------------------------------------------------------------------------------
  // Aircraft

  /** The attributes of an `Aircraft`, in camel case; `type`, a Dafny keyword, is
      `aircraftType`. */
  datatype Aircraft = Aircraft(
    aircraftType: Json,
    icaoType: Json,
    manufacturer: Json,
    modeS: Json,
    registration: Json,
    registeredOwnerCountryIsoName: Json,
    registeredOwnerCountryName: Json,
    registeredOwnerOperatorFlagCode: Json,
    registeredOwner: Json,
    urlPhoto: Json,
    urlPhotoThumbnail: Json)

  const AircraftParams: set<string> := {
    "type", "icao_type", "manufacturer", "mode_s", "registration",
    "registered_owner_country_iso_name", "registered_owner_country_name",
    "registered_owner_operator_flag_code", "registered_owner", "url_photo", "url_photo_thumbnail"
  }

  /** The record's attributes by their Python names (the keyword arguments it was built from). */
  function AircraftAttributes(a: Aircraft): (m: map<string, Json>)
    ensures m.Keys == AircraftParams
  {
    map[
      "type" := a.aircraftType,
      "icao_type" := a.icaoType,
      "manufacturer" := a.manufacturer,
      "mode_s" := a.modeS,
      "registration" := a.registration,
      "registered_owner_country_iso_name" := a.registeredOwnerCountryIsoName,
      "registered_owner_country_name" := a.registeredOwnerCountryName,
      "registered_owner_operator_flag_code" := a.registeredOwnerOperatorFlagCode,
      "registered_owner" := a.registeredOwner,
      "url_photo" := a.urlPhoto,
      "url_photo_thumbnail" := a.urlPhotoThumbnail
    ]
  }

  /** `Aircraft.from_dict`, i.e. `Aircraft(**data)`. */
  function AircraftFromDict(data: map<string, Json>): (r: Result<Aircraft, Mismatch>)
    ensures r.Success? <==> data.Keys == AircraftParams
    ensures r.Success? ==> AircraftAttributes(r.value) == data
    ensures r.Failure? ==> r.error == Mismatch(AircraftParams - data.Keys, data.Keys - AircraftParams)
  {
    match BindKeywords(AircraftParams, data)
    case Failure(m) => Failure(m)
    case Success(kw) =>
      var a := Aircraft(
        kw["type"], kw["icao_type"], kw["manufacturer"], kw["mode_s"], kw["registration"],
        kw["registered_owner_country_iso_name"], kw["registered_owner_country_name"],
        kw["registered_owner_operator_flag_code"], kw["registered_owner"], kw["url_photo"],
        kw["url_photo_thumbnail"]);
      assert AircraftAttributes(a) == data;
      Success(a)
  }

  /** Mapping a record's own attributes gives the record back. */
  lemma AircraftRoundTrip(a: Aircraft)
    ensures AircraftFromDict(AircraftAttributes(a)) == Success(a)
  {
  }

  // ---------------------------------------------------------------------------------------
  // Airline

  datatype Airline = Airline(
    name: Json,
    icao: Json,
    iata: Json,
    country: Json,
    countryIso: Json,
    callsign: Json)

  const AirlineKeys: set<string> := {"name", "icao", "iata", "country", "country_iso", "callsign"}

  /** What `Airline.from_dict` puts in a field whose key is absent: the four-character string
      `"None"`, not JSON null. */
  const AirlinePlaceholder: Json := Str("None")

  function AirlineAttributes(a: Airline): (m: map<string, Json>)
    ensures m.Keys == AirlineKeys
  {
    map[
      "name" := a.name,
      "icao" := a.icao,
      "iata" := a.iata,
      "country" := a.country,
      "country_iso" := a.countryIso,
      "callsign" := a.callsign
    ]
  }

  /** `Airline.from_dict`: never fails; each field is the entry of the same name when present
      (even when that entry is JSON null) and the placeholder when absent; other keys are
      ignored. */
  function AirlineFromDict(data: map<string, Json>): (a: Airline)
    ensures forall k | k in AirlineKeys && k in data :: AirlineAttributes(a)[k] == data[k]
    ensures forall k | k in AirlineKeys && k !in data :: AirlineAttributes(a)[k] == AirlinePlaceholder
  {
    Airline(
      DictGet(data, "name", AirlinePlaceholder),
      DictGet(data, "icao", AirlinePlaceholder),
      DictGet(data, "iata", AirlinePlaceholder),
      DictGet(data, "country", AirlinePlaceholder),
      DictGet(data, "country_iso", AirlinePlaceholder),
      DictGet(data, "callsign", AirlinePlaceholder))
  }

  /** Keys outside the six named ones never influence the record. */
  lemma AirlineIgnoresOtherKeys(data: map<string, Json>, extra: map<string, Json>)
    requires extra.Keys !! AirlineKeys
    ensures AirlineFromDict(data + extra) == AirlineFromDict(data - extra.Keys)
  {
  }

  /** Mapping a record's own attributes gives the record back. */
  lemma AirlineRoundTrip(a: Airline)
    ensures AirlineFromDict(AirlineAttributes(a)) == a
  {
  }

  /** An empty dictionary maps to a record made of placeholders only. */
  lemma AirlineFromEmpty()
    ensures AirlineFromDict(map[]) == Airline(
      AirlinePlaceholder, AirlinePlaceholder, AirlinePlaceholder,
      AirlinePlaceholder, AirlinePlaceholder, AirlinePlaceholder)
  {
  }

  // ---------------------------------------------------------------------------------------
  // Airport

  datatype Airport = Airport(
    name: Json,
    icao: Json,
    iata: Json,
    latitude: Json,
    longitude: Json,
    elevation: Json,
    municipality: Json,
    countryIsoName: Json,
    countryName: Json)

  const AirportParams: set<string> := {
    "name", "icao", "iata", "latitude", "longitude", "elevation",
    "municipality", "country_iso_name", "country_name"
  }

  function AirportAttributes(a: Airport): (m: map<string, Json>)
    ensures m.Keys == AirportParams
  {
    map[
      "name" := a.name,
      "icao" := a.icao,
      "iata" := a.iata,
      "latitude" := a.latitude,
      "longitude" := a.longitude,
      "elevation" := a.elevation,
      "municipality" := a.municipality,
      "country_iso_name" := a.countryIsoName,
      "country_name" := a.countryName
    ]
  }

  /** `Airport.from_dict`, i.e. `Airport(**data)`. */
  function AirportFromDict(data: map<string, Json>): (r: Result<Airport, Mismatch>)
    ensures r.Success? <==> data.Keys == AirportParams
    ensures r.Success? ==> AirportAttributes(r.value) == data
    ensures r.Failure? ==> r.error == Mismatch(AirportParams - data.Keys, data.Keys - AirportParams)
  {
    match BindKeywords(AirportParams, data)
    case Failure(m) => Failure(m)
    case Success(kw) =>
      var a := Airport(
        kw["name"], kw["icao"], kw["iata"], kw["latitude"], kw["longitude"], kw["elevation"],
        kw["municipality"], kw["country_iso_name"], kw["country_name"]);
      assert AirportAttributes(a) == data;
      Success(a)
  }

  lemma AirportRoundTrip(a: Airport)
    ensures AirportFromDict(AirportAttributes(a)) == Success(a)
  {
  }

  // ---------------------------------------------------------------------------------------
  // FlightRoute

  datatype FlightRoute = FlightRoute(
    callsign: Json,
    callsignIcao: Json,
    callsignIata: Json,
    airline: Json,
    origin: Json,
    destination: Json)

  const FlightRouteParams: set<string> := {
    "callsign", "callsign_icao", "callsign_iata", "airline", "origin", "destination"
  }

  function FlightRouteAttributes(f: FlightRoute): (m: map<string, Json>)
    ensures m.Keys == FlightRouteParams
  {
    map[
      "callsign" := f.callsign,
      "callsign_icao" := f.callsignIcao,
      "callsign_iata" := f.callsignIata,
      "airline" := f.airline,
      "origin" := f.origin,
      "destination" := f.destination
    ]
  }

  /** `FlightRoute.from_dict`, i.e. `FlightRoute(**data)`; nested objects are not mapped. */
  function FlightRouteFromDict(data: map<string, Json>): (r: Result<FlightRoute, Mismatch>)
    ensures r.Success? <==> data.Keys == FlightRouteParams
    ensures r.Success? ==> FlightRouteAttributes(r.value) == data
    ensures r.Failure? ==> r.error == Mismatch(FlightRouteParams - data.Keys, data.Keys - FlightRouteParams)
  {
    match BindKeywords(FlightRouteParams, data)
    case Failure(m) => Failure(m)
    case Success(kw) =>
      var f := FlightRoute(
        kw["callsign"], kw["callsign_icao"], kw["callsign_iata"],
        kw["airline"], kw["origin"], kw["destination"]);
      assert FlightRouteAttributes(f) == data;
      Success(f)
  }

  lemma FlightRouteRoundTrip(f: FlightRoute)
    ensures FlightRouteFromDict(FlightRouteAttributes(f)) == Success(f)
  {
  }
}
