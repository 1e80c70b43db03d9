/** The pickup-location search behind `GET /apps/xbs-pudo`: the GetLocations
    request built from the query string, and the carrier filter applied to the
    locations the carrier returns. The carrier's reply is an input. */
module Locations {
  import opened Wrappers
  import opened Text
  import opened Arrays

  /** The query string: `country`, `zip` and `city`. */
  datatype LocationQuery = LocationQuery(country: Option<string>, zip: Option<string>, city: Option<string>)

  /** `requestBody.Location`. */
  datatype LocationFilter = LocationFilter(country: string, zip: Option<string>, city: Option<string>)

  datatype GetLocationsRequest = GetLocationsRequest(apikey: Option<string>, command: string, location: LocationFilter)

  /** One entry of the carrier's `Location` list. Coordinates and the other
      pass-through values are kept as uninterpreted optional strings. */
  datatype CarrierLocation = CarrierLocation(
    id: Option<string>,
    name: Option<string>,
    address1: Option<string>,
    address2: Option<string>,
    city: Option<string>,
    zip: Option<string>,
    countryCode: Option<string>,
    carrier: Option<string>,
    service: Option<string>,
    latitude: Option<string>,
    longitude: Option<string>,
    businessHours: Option<string>)

  /** What the carrier answers: a non-OK HTTP status, or a JSON body. */
  datatype LocationsReply =
    | LocationsHttpError(status: int)
    | LocationsBody(errorLevel: Option<int>, error: Option<string>, location: Option<seq<CarrierLocation>>)

  /** A location as the endpoint reports it. */
  datatype PickupPoint = PickupPoint(
    id: Option<string>,
    name: Option<string>,
    address1: Option<string>,
    address2: string,
    city: Option<string>,
    zip: Option<string>,
    country: Option<string>,
    carrier: Option<string>,
    service: Option<string>,
    latitude: Option<string>,
    longitude: Option<string>,
    businessHours: string)

  /** The endpoint's answer: 400 without a country, 200 with the filtered
      locations, 500 when the carrier fails. */
  datatype PudoResponse =
    | MissingCountry(error: string)
    | Located(country: string, totalFound: nat, filtered: nat, locations: seq<PickupPoint>)
    | SearchFailed(error: string, country: string)

  const MissingCountryMessage := "Country query param is required, e.g. ?country=FR"

  function Status(r: PudoResponse): int {
    match r
    case MissingCountry(_) => 400
    case Located(_, _, _, _) => 200
    case SearchFailed(_, _) => 500
  }

  /** The carrier a country's pickup points must belong to: for FR a carrier
      name containing "colis prive", for PL one containing "inpost" (both
      compared in lower case, a missing carrier counting as ""); any other
      country keeps every location. */
  predicate KeepsLocation(country: string, loc: CarrierLocation) {
    var carrier := AsciiLower(OrElse(loc.carrier, ""));
    if country == "FR" then Contains(carrier, "colis prive")
    else if country == "PL" then Contains(carrier, "inpost")
    else true
  }

  /** `points.filter(...)`: exactly the locations `KeepsLocation` accepts,
      each as often as in the input and in the input's order. */
  function FilterByCarrier(country: string, points: seq<CarrierLocation>): (kept: seq<CarrierLocation>)
    ensures IsSubsequence(kept, points)
    ensures |kept| <= |points|
    ensures forall l :: l in kept <==> l in points && KeepsLocation(country, l)
    ensures forall l :: multiset(kept)[l] == if KeepsLocation(country, l) then multiset(points)[l] else 0
    ensures country != "FR" && country != "PL" ==> kept == points
    decreases |points|
  {
    if |points| == 0 then []
    else
      var rest := FilterByCarrier(country, points[1..]);
      assert points == [points[0]] + points[1..];
      if KeepsLocation(country, points[0]) then [points[0]] + rest else rest
  }

  function ToPickupPoint(loc: CarrierLocation): PickupPoint {
    PickupPoint(loc.id, loc.name, loc.address1, OrElse(loc.address2, ""), loc.city, loc.zip,
                loc.countryCode, loc.carrier, loc.service, loc.latitude, loc.longitude,
                OrElse(loc.businessHours, ""))
  }

  /** `filtered.map(...)`: one reported point per kept location, in order. */
  function ToPickupPoints(locs: seq<CarrierLocation>): (r: seq<PickupPoint>)
    ensures |r| == |locs|
    ensures forall i :: 0 <= i < |locs| ==> r[i] == ToPickupPoint(locs[i])
    decreases |locs|
  {
    if |locs| == 0 then [] else [ToPickupPoint(locs[0])] + ToPickupPoints(locs[1..])
  }

  /** The answer to a search for the upper-cased `country`, given the
      carrier's reply. A non-OK status and a non-zero (or missing) ErrorLevel
      are 500s; otherwise the reply's locations (none when absent) are
      filtered by carrier, `totalFound` counts them before the filter and
      `filtered` after it. */
  function SearchOutcome(country: string, reply: LocationsReply): (r: PudoResponse)
    ensures reply.LocationsHttpError? ==>
      r == SearchFailed("XBS API responded with status " + IntToString(reply.status), country)
    ensures reply.LocationsBody? && reply.errorLevel != Some(0) ==>
      r == SearchFailed("XBS API Error: " + OrElse(reply.error, "Unknown error"), country)
    ensures reply.LocationsBody? && reply.errorLevel == Some(0) ==>
      var points := reply.location.GetOr([]);
      && r.Located?
      && r.country == country
      && r.totalFound == |points|
      && r.filtered == |r.locations| <= r.totalFound
      && r.locations == ToPickupPoints(FilterByCarrier(country, points))
      && (country != "FR" && country != "PL" ==> r.filtered == r.totalFound)
  {
    match reply
    case LocationsHttpError(status) =>
      SearchFailed("XBS API responded with status " + IntToString(status), country)
    case LocationsBody(errorLevel, error, location) =>
      if errorLevel != Some(0) then
        SearchFailed("XBS API Error: " + OrElse(error, "Unknown error"), country)
      else
        var points := location.GetOr([]);
        var locations := ToPickupPoints(FilterByCarrier(country, points));
        Located(country, |points|, |locations|, locations)
  }

  /** In a French answer every reported point is a Colis Privé location, in a
      Polish one an InPost location. */
  lemma LocatedCarriers(country: string, reply: LocationsReply, i: nat)
    requires reply.LocationsBody? && reply.errorLevel == Some(0)
    requires i < |FilterByCarrier(country, reply.location.GetOr([]))|
    ensures SearchOutcome(country, reply).Located? && i < |SearchOutcome(country, reply).locations|
    ensures var p := SearchOutcome(country, reply).locations[i];
      && (country == "FR" ==> Contains(AsciiLower(OrElse(p.carrier, "")), "colis prive"))
      && (country == "PL" ==> Contains(AsciiLower(OrElse(p.carrier, "")), "inpost"))
  {
    var points := reply.location.GetOr([]);
    var kept := FilterByCarrier(country, points);
    assert kept[i] in kept;
  }

  /** The `/apps/xbs-pudo` handler. Without a country it answers 400 and sends
      nothing; otherwise it builds the GetLocations request field by field,
      as the source does: the upper-cased country, then the zip when one was
      given, then the city only when one was given and the country is IT. */
  method XbsPudo(apikey: Option<string>, q: LocationQuery, reply: LocationsReply)
    returns (sent: Option<GetLocationsRequest>, response: PudoResponse)
    ensures response == MissingCountry(MissingCountryMessage) <==> !Truthy(q.country)
    ensures Status(response) == 400 <==> !Truthy(q.country)
    ensures Truthy(q.country) ==> Status(response) == (if SearchOutcome(AsciiUpper(q.country.value), reply).Located? then 200 else 500)
    ensures sent == None <==> !Truthy(q.country)
    ensures sent.Some? ==>
      var loc := sent.value.location;
      && sent.value.apikey == apikey
      && sent.value.command == "GetLocations"
      && loc.country == AsciiUpper(q.country.value)
      && (loc.zip.Some? <==> Truthy(q.zip))
      && (loc.zip.Some? ==> loc.zip == q.zip)
      && (loc.city.Some? <==> Truthy(q.city) && loc.country == "IT")
      && (loc.city.Some? ==> loc.city == q.city)
    ensures Truthy(q.country) ==> response == SearchOutcome(AsciiUpper(q.country.value), reply)
  {
    if !Truthy(q.country) {
      return None, MissingCountry(MissingCountryMessage);
    }
    var country := AsciiUpper(q.country.value);
    var location := LocationFilter(country, None, None);
    if Truthy(q.zip) {
      location := location.(zip := q.zip);
    }
    if Truthy(q.city) && country == "IT" {
      location := location.(city := q.city);
    }
    sent := Some(GetLocationsRequest(apikey, "GetLocations", location));
    response := SearchOutcome(country, reply);
  }
}
