/** The deliverability decision: validate the restaurant, normalise the
    postcode, note whether it is cached, geocode it, and compare the distance
    with the radius (app/routers/deliverability.py). */
module Deliverability {
  import opened Wrappers
  import opened Geocode
  import opened DeliverabilitySchema

  /** Tolerance added to the radius (`buffer_miles`). */
  const BufferMiles: real := 0.05

  /** Great-circle distance in miles between two points; supplied by the caller. */
  type Distance = (Coords, Coords) -> real

  datatype CheckOutcome =
    | Answered(response: DeliverabilityCheckResponse)
    | InternalError(status: int, detail: string)

  predicate CoordinatesInRange(loc: RestaurantLocation) {
    LatitudeInRange(loc.lat) && LongitudeInRange(loc.lon)
  }

  /** `request.radius_miles or 3.0`: a missing or zero radius falls back to 3.0. */
  function EffectiveRadius(radius: Option<real>): (r: real)
    ensures radius.None? || radius == Some(0.0) ==> r == DefaultRadiusMiles
    ensures radius.Some? && radius.value != 0.0 ==> r == radius.value
  {
    if radius.Some? && radius.value != 0.0 then radius.value else DefaultRadiusMiles
  }

  /** The response once the key is non-empty and the lookup has finished. */
  function Decide(key: string, source: Source, customer: Option<Coords>,
                  request: DeliverabilityCheckRequest, milesBetween: Distance): DeliverabilityCheckResponse
  {
    match customer
    case None =>
      DeliverabilityCheckResponse(false, None, key, if key != [] then InvalidPostcode else GeocodeError, source)
    case Some(c) =>
      var distance := milesBetween(Coords(request.restaurant.lat, request.restaurant.lon), c);
      var deliverable := distance <= EffectiveRadius(request.radiusMiles) + BufferMiles;
      DeliverabilityCheckResponse(deliverable, Some(distance), key, if deliverable then Ok else OutOfRange, source)
  }

  /** check_deliverability against a cache snapshot: the outcome and the number
      of geocoding provider calls. */
  function CheckSpec(cache: map<string, Coords>, request: DeliverabilityCheckRequest,
                     script: seq<Outcome>, milesBetween: Distance): (CheckOutcome, nat)
  {
    if !CoordinatesInRange(request.restaurant) then
      (InternalError(500, "Invalid restaurant coordinates"), 0)
    else
      var key := NormalizePostcode(request.customerPostcode);
      if key == [] then
        (Answered(DeliverabilityCheckResponse(false, None, request.customerPostcode, InvalidPostcode, Api)), 0)
      else
        var source := if key in cache then Cache else Api;
        var lookup := GeocodeSpec(cache, request.customerPostcode, script);
        (Answered(Decide(key, source, lookup.coords, request, milesBetween)), lookup.calls)
  }

  /** check_deliverability over the shared cache and a scripted geocoding provider. */
  method CheckDeliverability(cache: PostcodeCache, request: DeliverabilityCheckRequest,
                             script: seq<Outcome>, milesBetween: Distance)
    returns (outcome: CheckOutcome, calls: nat)
    requires cache.Valid()
    modifies cache
    ensures cache.Valid()
    ensures (outcome, calls) == CheckSpec(old(cache.entries), request, script, milesBetween)
    ensures var lookup := GeocodeSpec(old(cache.entries), request.customerPostcode, script);
      if CoordinatesInRange(request.restaurant) && lookup.calls > 0 && lookup.coords.Some?
      then Stored(old(cache.entries), cache.entries, NormalizePostcode(request.customerPostcode), lookup.coords.value)
      else cache.entries == old(cache.entries)
  {
    var lat, lon := request.restaurant.lat, request.restaurant.lon;
    if !(-90.0 <= lat <= 90.0) || !(-180.0 <= lon <= 180.0) {
      return InternalError(500, "Invalid restaurant coordinates"), 0;
    }
    var normalized := NormalizePostcode(request.customerPostcode);
    if normalized == [] {
      var response := DeliverabilityCheckResponse(false, None, request.customerPostcode, InvalidPostcode, Api);
      return Answered(response), 0;
    }
    // the source is decided before the lookup, which may fill the cache
    var source := if normalized in cache.entries then Cache else Api;
    var customer;
    customer, calls := GeocodePostcode(cache, request.customerPostcode, script);
    if customer.None? {
      var reason := if normalized != [] then InvalidPostcode else GeocodeError;
      return Answered(DeliverabilityCheckResponse(false, None, normalized, reason, source)), calls;
    }
    var distance := milesBetween(Coords(lat, lon), customer.value);
    var radius := EffectiveRadius(request.radiusMiles);
    var deliverable := distance <= radius + BufferMiles;
    var reason := if deliverable then Ok else OutOfRange;
    outcome := Answered(DeliverabilityCheckResponse(deliverable, Some(distance), normalized, reason, source));
  }

  // ---------------------------------------------------------------------------
  // Properties of the decision
  // ---------------------------------------------------------------------------

  /** Out-of-range restaurant coordinates, and only they, give an internal
      error (500) before any postcode work. */
  lemma BadRestaurantIsInternalError(cache: map<string, Coords>, request: DeliverabilityCheckRequest,
                                     script: seq<Outcome>, milesBetween: Distance)
    ensures CheckSpec(cache, request, script, milesBetween).0.InternalError?
            <==> !CoordinatesInRange(request.restaurant)
    ensures !CoordinatesInRange(request.restaurant) ==>
      CheckSpec(cache, request, script, milesBetween) == (InternalError(500, "Invalid restaurant coordinates"), 0)
  {
  }

  /** A postcode that normalises to "" is answered at once with INVALID_POSTCODE,
      source "api", the raw input echoed, and no geocoding call. */
  lemma BlankPostcodeAnswer(cache: map<string, Coords>, request: DeliverabilityCheckRequest,
                            script: seq<Outcome>, milesBetween: Distance)
    requires CoordinatesInRange(request.restaurant)
    requires forall i :: 0 <= i < |request.customerPostcode| ==> Text.IsSpace(request.customerPostcode[i])
    ensures CheckSpec(cache, request, script, milesBetween) ==
      (Answered(DeliverabilityCheckResponse(false, None, request.customerPostcode, InvalidPostcode, Api)), 0)
  {
    BlankPostcodeIsEmpty(request.customerPostcode);
  }

  /** The source is "cache" exactly when the key was cached before the lookup;
      a cached key is answered from the cached coordinates without a call. */
  lemma SourceIsCacheMembership(cache: map<string, Coords>, request: DeliverabilityCheckRequest,
                                script: seq<Outcome>, milesBetween: Distance)
    requires CoordinatesInRange(request.restaurant)
    requires NormalizePostcode(request.customerPostcode) != []
    ensures var (outcome, calls) := CheckSpec(cache, request, script, milesBetween);
      && outcome.Answered?
      && (outcome.response.source == Cache <==> NormalizePostcode(request.customerPostcode) in cache)
      && (outcome.response.source == Cache ==>
            && calls == 0
            && outcome.response.distanceMiles ==
               Some(milesBetween(Coords(request.restaurant.lat, request.restaurant.lon),
                                 cache[NormalizePostcode(request.customerPostcode)])))
  {
  }

  /** A failed lookup yields no distance, deliverable false and always
      INVALID_POSTCODE: GEOCODE_ERROR is never produced. */
  lemma FailedLookupIsInvalidPostcode(cache: map<string, Coords>, request: DeliverabilityCheckRequest,
                                      script: seq<Outcome>, milesBetween: Distance)
    ensures var outcome := CheckSpec(cache, request, script, milesBetween).0;
      && (outcome.Answered? ==> outcome.response.reason != GeocodeError)
      && (outcome.Answered? && outcome.response.distanceMiles.None? ==>
            !outcome.response.deliverable && outcome.response.reason == InvalidPostcode)
  {
  }

  /** With coordinates found, the answer is deliverable exactly when the
      distance is at most radius + 0.05, the reason is OK exactly then and
      OUT_OF_RANGE otherwise, and the key is echoed as normalised. */
  lemma ThresholdDecision(cache: map<string, Coords>, request: DeliverabilityCheckRequest,
                          script: seq<Outcome>, milesBetween: Distance)
    requires CoordinatesInRange(request.restaurant)
    requires GeocodeSpec(cache, request.customerPostcode, script).coords.Some?
    ensures var response := CheckSpec(cache, request, script, milesBetween).0.response;
      var distance := milesBetween(Coords(request.restaurant.lat, request.restaurant.lon),
                                   GeocodeSpec(cache, request.customerPostcode, script).coords.value);
      && response.distanceMiles == Some(distance)
      && (response.deliverable <==> distance <= EffectiveRadius(request.radiusMiles) + 0.05)
      && (response.reason == Ok <==> response.deliverable)
      && (!response.deliverable ==> response.reason == OutOfRange)
      && response.normalizedPostcode == NormalizePostcode(request.customerPostcode)
  {
  }

  /** A request that passed validation never reaches the internal error. */
  lemma ValidatedRequestPassesGuard(input: RequestInput, cache: map<string, Coords>,
                                    script: seq<Outcome>, milesBetween: Distance)
    requires ValidateRequest(input).Success?
    ensures CheckSpec(cache, ValidateRequest(input).value, script, milesBetween).0.Answered?
  {
  }

  /** After a check that geocoded through the provider, the same request is
      answered identically except that the source is "cache", with no call. */
  lemma RepeatCheckReportsCache(before: map<string, Coords>, after: map<string, Coords>,
                                request: DeliverabilityCheckRequest, script: seq<Outcome>,
                                later: seq<Outcome>, milesBetween: Distance)
    requires CoordinatesInRange(request.restaurant)
    requires GeocodeSpec(before, request.customerPostcode, script).calls > 0
    requires GeocodeSpec(before, request.customerPostcode, script).coords.Some?
    requires Stored(before, after, NormalizePostcode(request.customerPostcode),
                    GeocodeSpec(before, request.customerPostcode, script).coords.value)
    ensures var first := CheckSpec(before, request, script, milesBetween).0;
      && first.Answered? && first.response.source == Api
      && CheckSpec(after, request, later, milesBetween) == (Answered(first.response.(source := Cache)), 0)
  {
    GeocodeCallBound(before, request.customerPostcode, script);
    RepeatLookupHitsCache(before, after, request.customerPostcode, script, later);
  }
}
