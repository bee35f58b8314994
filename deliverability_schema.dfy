/** The request validation and the response vocabulary of the deliverability
    check (app/schemas/deliverability.py). */
module DeliverabilitySchema {
  import opened Wrappers

  /** `RestaurantLocation`: coordinates in decimal degrees. */
  datatype RestaurantLocation = RestaurantLocation(lat: real, lon: real)

  /** `validate_latitude` accepts exactly this closed range. */
  predicate LatitudeInRange(v: real) {
    -90.0 <= v <= 90.0
  }

  /** `validate_longitude` accepts exactly this closed range. */
  predicate LongitudeInRange(v: real) {
    -180.0 <= v <= 180.0
  }

  const DefaultRadiusMiles: real := 3.0
  const MinRadiusMiles: real := 0.1
  const MaxRadiusMiles: real := 50.0

  /** `DeliverabilityCheckRequest` once validated. */
  datatype DeliverabilityCheckRequest = DeliverabilityCheckRequest(
    restaurant: RestaurantLocation,
    customerPostcode: string,
    radiusMiles: Option<real>)

  /** The request body as it arrives, before validation. */
  datatype LocationInput = LocationInput(lat: Option<real>, lon: Option<real>)

  /** `radius_miles` may be left out (default 3.0), sent as null, or given. */
  datatype RadiusInput = Omitted | Null | Given(value: real)

  datatype RequestInput = RequestInput(
    restaurant: Option<LocationInput>,
    customerPostcode: Option<string>,
    radiusMiles: RadiusInput)

  /** One validation complaint; all of them are reported together (status 422). */
  datatype FieldError =
    | MissingRestaurant
    | MissingLatitude
    | MissingLongitude
    | LatitudeOutOfRange
    | LongitudeOutOfRange
    | MissingPostcode
    | RadiusOutOfRange

  function LatitudeErrors(lat: Option<real>): set<FieldError> {
    match lat
    case None => {MissingLatitude}
    case Some(v) => if LatitudeInRange(v) then {} else {LatitudeOutOfRange}
  }

  function LongitudeErrors(lon: Option<real>): set<FieldError> {
    match lon
    case None => {MissingLongitude}
    case Some(v) => if LongitudeInRange(v) then {} else {LongitudeOutOfRange}
  }

  function RestaurantErrors(restaurant: Option<LocationInput>): set<FieldError> {
    match restaurant
    case None => {MissingRestaurant}
    case Some(loc) => LatitudeErrors(loc.lat) + LongitudeErrors(loc.lon)
  }

  function RadiusErrors(radius: RadiusInput): set<FieldError> {
    if radius.Given? && !(MinRadiusMiles <= radius.value <= MaxRadiusMiles) then {RadiusOutOfRange} else {}
  }

  function PostcodeErrors(postcode: Option<string>): set<FieldError> {
    if postcode.None? then {MissingPostcode} else {}
  }

  /** Validation of the request body: every complaint is collected; without
      complaints the request carries the given values, and an omitted radius
      becomes 3.0 while an explicit null stays null. */
  function ValidateRequest(input: RequestInput): (r: Result<DeliverabilityCheckRequest, set<FieldError>>)
    ensures r.Success? <==>
      && input.restaurant.Some?
      && input.restaurant.value.lat.Some? && LatitudeInRange(input.restaurant.value.lat.value)
      && input.restaurant.value.lon.Some? && LongitudeInRange(input.restaurant.value.lon.value)
      && input.customerPostcode.Some?
      && (input.radiusMiles.Given? ==> MinRadiusMiles <= input.radiusMiles.value <= MaxRadiusMiles)
    ensures r.Success? ==>
      && r.value.restaurant == RestaurantLocation(input.restaurant.value.lat.value, input.restaurant.value.lon.value)
      && r.value.customerPostcode == input.customerPostcode.value
      && r.value.radiusMiles == match input.radiusMiles
           case Omitted => Some(DefaultRadiusMiles)
           case Null => None
           case Given(v) => Some(v)
    ensures r.Failure? ==> r.error != {}
    ensures r.Failure? ==>
      && (RadiusOutOfRange in r.error <==>
            input.radiusMiles.Given? && !(MinRadiusMiles <= input.radiusMiles.value <= MaxRadiusMiles))
      && (MissingPostcode in r.error <==> input.customerPostcode.None?)
      && (MissingRestaurant in r.error <==> input.restaurant.None?)
      && (MissingLatitude in r.error <==> input.restaurant.Some? && input.restaurant.value.lat.None?)
      && (MissingLongitude in r.error <==> input.restaurant.Some? && input.restaurant.value.lon.None?)
      && (LatitudeOutOfRange in r.error <==>
            input.restaurant.Some? && input.restaurant.value.lat.Some?
            && !LatitudeInRange(input.restaurant.value.lat.value))
      && (LongitudeOutOfRange in r.error <==>
            input.restaurant.Some? && input.restaurant.value.lon.Some?
            && !LongitudeInRange(input.restaurant.value.lon.value))
  {
    var errors := RestaurantErrors(input.restaurant) + PostcodeErrors(input.customerPostcode)
                  + RadiusErrors(input.radiusMiles);
    if errors != {} then Failure(errors)
    else
      var loc := input.restaurant.value;
      Success(DeliverabilityCheckRequest(
        RestaurantLocation(loc.lat.value, loc.lon.value),
        input.customerPostcode.value,
        match input.radiusMiles
        case Omitted => Some(DefaultRadiusMiles)
        case Null => None
        case Given(v) => Some(v)))
  }

  /** The radius bounds are inclusive: 0.1 and 50.0 pass, 0.05 and 50.5 do not. */
  lemma RadiusBoundaries(loc: LocationInput, postcode: string)
    requires loc.lat.Some? && LatitudeInRange(loc.lat.value)
    requires loc.lon.Some? && LongitudeInRange(loc.lon.value)
    ensures ValidateRequest(RequestInput(Some(loc), Some(postcode), Given(0.1))).Success?
    ensures ValidateRequest(RequestInput(Some(loc), Some(postcode), Given(50.0))).Success?
    ensures ValidateRequest(RequestInput(Some(loc), Some(postcode), Given(0.05))) == Failure({RadiusOutOfRange})
    ensures ValidateRequest(RequestInput(Some(loc), Some(postcode), Given(50.5))) == Failure({RadiusOutOfRange})
    ensures ValidateRequest(RequestInput(Some(loc), Some(postcode), Omitted)).value.radiusMiles == Some(3.0)
  {
    assert RestaurantErrors(Some(loc)) == {} && PostcodeErrors(Some(postcode)) == {};
    assert RestaurantErrors(Some(loc)) + PostcodeErrors(Some(postcode)) + RadiusErrors(Given(0.05)) == {RadiusOutOfRange};
    assert RestaurantErrors(Some(loc)) + PostcodeErrors(Some(postcode)) + RadiusErrors(Given(50.5)) == {RadiusOutOfRange};
  }

  // ---------------------------------------------------------------------------
  // Response
  // ---------------------------------------------------------------------------

  /** The `reason` literal set. */
  datatype Reason = Ok | InvalidPostcode | GeocodeError | OutOfRange

  /** The `source` literal set. */
  datatype Source = Api | Cache

  function ReasonLiteral(reason: Reason): string {
    match reason
    case Ok => "OK"
    case InvalidPostcode => "INVALID_POSTCODE"
    case GeocodeError => "GEOCODE_ERROR"
    case OutOfRange => "OUT_OF_RANGE"
  }

  /** Accepts a `reason` string exactly when it is one of the four literals. */
  function ParseReason(s: string): (r: Option<Reason>)
    ensures r.Some? <==> s in {"OK", "INVALID_POSTCODE", "GEOCODE_ERROR", "OUT_OF_RANGE"}
  {
    if s == "OK" then Some(Ok)
    else if s == "INVALID_POSTCODE" then Some(InvalidPostcode)
    else if s == "GEOCODE_ERROR" then Some(GeocodeError)
    else if s == "OUT_OF_RANGE" then Some(OutOfRange)
    else None
  }

  function SourceLiteral(source: Source): string {
    match source
    case Api => "api"
    case Cache => "cache"
  }

  /** Accepts a `source` string exactly when it is "api" or "cache". */
  function ParseSource(s: string): (r: Option<Source>)
    ensures r.Some? <==> s in {"api", "cache"}
  {
    if s == "api" then Some(Api) else if s == "cache" then Some(Cache) else None
  }

  /** Literal and value determine each other. */
  lemma LiteralsRoundTrip(s: string, reason: Reason, source: Source)
    ensures ParseReason(s) == Some(reason) <==> ReasonLiteral(reason) == s
    ensures ParseSource(s) == Some(source) <==> SourceLiteral(source) == s
  {
  }

  /** `DeliverabilityCheckResponse`; `distanceMiles` is null when no distance was computed. */
  datatype DeliverabilityCheckResponse = DeliverabilityCheckResponse(
    deliverable: bool,
    distanceMiles: Option<real>,
    normalizedPostcode: string,
    reason: Reason,
    source: Source)
}
