# HutBite integrations: the delivery-range pipeline and its string mappers, in Dafny

This project models the decision logic of the HutBite integration backend and proves properties of it.

- **Deliverability check.** It validates the restaurant coordinates and normalises the UK postcode. It notes whether the postcode was already cached, then geocodes it: from the cache, or from a postcode provider with at most two attempts. Finally it compares the distance with the delivery radius plus a 0.05-mile buffer and reports a reason and a source.
- **HubRise API client.** The client merges request headers, runs a retrying request loop (retryable statuses, `Retry-After`, jittered exponential backoff, re-raise when attempts run out), and builds the endpoint paths.
- **UK phone number normaliser, and the SMS service's enabled flag and messages.**
- **Address suggestion mapper.** It splits a German description into a five-digit postal code and a city.
- **Customer identity rule** and the enumerations of an order create request.

Modules follow the source files:

| module | source file |
|---|---|
| `Geocode` (`geocode.dfy`) | app/services/geocode.py |
| `DeliverabilitySchema` (`deliverability_schema.dfy`) | app/schemas/deliverability.py |
| `Deliverability` (`deliverability.dfy`) | app/routers/deliverability.py |
| `HubRise` (`hubrise.dfy`) | app/clients/hubrise.py |
| `Sms` (`sms.dfy`) | app/services/sms.py |
| `Address` (`address.dfy`) | app/services/address.py |
| `Orders` (`orders.dfy`) | app/schemas/orders.py |
| `Text` (`text.dfy`), `Wrappers` (`wrappers.dfy`) | Python string operations the services use; `Option` and `Result` |

## How the model is set up

- **State.** The process-wide postcode cache is a `PostcodeCache` object with a `map` field. `GeocodePostcode` and `CheckDeliverability` take it as a parameter and modify it. Each of these two methods is proved equal to a specification function over the cache snapshot it started from (`GeocodeSpec`, `CheckSpec`). The lemmas are stated about those functions.
- **External services are scripts.** The geocoding provider and the HubRise transport are sequences of outcomes: call `i` receives element `i`. A call past the end of the script raises an exception that is neither a network error nor a transport error. The number of calls is part of the result.
- **Randomness and sleeps.** The HubRise loop's random jitter is an input function, `jitter(attempt)`. The loop returns the list of delays it would sleep instead of sleeping.
- **Distance.** The great-circle distance is an input function of the two coordinate pairs.
- **Text.** Strings are ASCII. Python's whitespace (`str.isspace`, regex `\s`, `str.strip()`) is the ten ASCII characters tab, line feed, vertical tab, form feed, carriage return, 0x1C–0x1F and space. pydantic's `str_strip_whitespace` trims only tab through carriage return and space; it does not trim 0x1C–0x1F. `upper()` changes only `a`–`z`, and `isdigit()`/`\d` accept only `0`–`9`.
- **Where the code and its documentation disagree, the model follows the code.**
  - **GEOCODE_ERROR is never produced.** A failed lookup is answered `INVALID_POSTCODE` in every case (app/routers/deliverability.py:72). The normalised key is known to be non-empty there, so the `GEOCODE_ERROR` branch is unreachable. A test in the repository (tests/test_deliverability_api.py:221) expects `GEOCODE_ERROR` for a provider failure. `Deliverability.FailedLookupIsInvalidPostcode` proves the code's behaviour.
  - **Nine-digit phone numbers get +44.** `_e164_uk` prefixes `+44` to a bare number of 9 to 11 digits (app/services/sms.py:33). Its description says 10 to 11 (app/services/sms.py:22). `Sms.NineDigitsGetCountryCode` proves the 9-digit case.
- **Any customer object is an identity.** `bool(customer)` is true for every `Customer` object, even one with no fields set. So `HasGuest` is "a customer object was given".
- **Enum values are matched exactly as given.** `OrderStatus` and `ServiceType` values are compared against the literals with no trimming.

## Model

| member | source | states |
|---|---|---|
| `Text.StripChars` | app/services/address.py:30 | `s.strip(chars)`: the result is the contiguous slice of the input that starts at the first character outside `chars`; both its ends are outside `chars`, and every character cut off is in `chars` |
| `Text.RemoveWhitespace` | app/services/geocode.py:24 | `re.sub(r'\s+', '', s)`: no whitespace is left, every kept character comes from the input, and the result is no longer than the input |
| `Geocode.Collapse` | app/services/geocode.py:24 | the trimmed, upper-cased, whitespace-free form contains no whitespace and no lower-case letter |
| `Geocode.NormalizePostcode` | app/services/geocode.py:15-31 | empty input gives ""; a collapsed form shorter than 5 is returned unchanged; from 5 characters on, the result is the collapsed form with exactly one space inserted before its last three characters |
| `Geocode.CollapseIsUpperWithoutWhitespace` | app/services/geocode.py:24 | stripping before deleting whitespace is redundant: the key is the upper-cased input with every whitespace character removed |
| `Geocode.BlankPostcodeIsEmpty` | app/services/geocode.py:20-24 | an empty or whitespace-only postcode normalises to "" |
| `Geocode.NonBlankPostcodeIsKept` | app/services/geocode.py:20-31 | a postcode with any non-whitespace character never normalises to "" |
| `Geocode.NormalizeWithoutSpaceIsCollapse` | app/services/geocode.py:24-29 | deleting whitespace from the normalised postcode gives back the collapsed form, so the inserted space is the only change |
| `Geocode.NormalizeIdempotent` | app/services/geocode.py:15-31 | normalising a normalised postcode changes nothing |
| `Geocode.PostcodeCache.constructor` | app/services/geocode.py:12 | the cache starts empty and within its 1000-entry bound |
| `Geocode.PostcodeCache.Put` | app/services/geocode.py:68 | storing keeps the 1000-entry bound; the key then holds the value and no other entry changes; at most one other entry is evicted, and none while there is room or the key was already present |
| `Geocode.PostcodeCache.Clear` | app/services/geocode.py:106-108 | `clear_cache` leaves the cache empty |
| `Geocode.GeocodePostcode` | app/services/geocode.py:34-103 | the two-attempt loop returns exactly the specification's coordinates and call count. The cache is written once, under the normalised key, exactly when the provider produced coordinates; otherwise it is untouched |
| `Geocode.ProviderLoopCalls` | app/services/geocode.py:55-101 | the provider loop makes at least one call and never more than the attempts that remain |
| `Geocode.GeocodeCallBound` | app/services/geocode.py:40-57 | at most two provider calls. None are made exactly when the key is empty or cached. An empty key gives None, and a cached key gives the cached coordinates |
| `Geocode.NotFoundIsFinal` | app/services/geocode.py:72-75 | a 404 gives None after exactly one call, with no retry |
| `Geocode.OtherFailuresAreFinal` | app/services/geocode.py:84-101 | an unexpected exception, or a status that is none of 200, 404 and 5xx, gives None after exactly one call |
| `Geocode.TransientFailureRetriedOnce` | app/services/geocode.py:77-97 | a 5xx or network error on the first attempt means exactly two calls, and the second attempt alone decides the result. A second 5xx or network error gives None |
| `Geocode.UnusableBodyFallsThrough` | app/services/geocode.py:59-70 | a 200 reply whose body lacks `status == 200`, a `result` or non-null coordinates falls through to the next attempt; two such replies give None after two calls |
| `Geocode.SuccessComesFromUsableBody` | app/services/geocode.py:59-70 | coordinates always come from the last call made, and that call was a 200 reply with a usable body carrying exactly those coordinates |
| `Geocode.RepeatLookupHitsCache` | app/services/geocode.py:46-49 | after a lookup stored coordinates, the same postcode is answered from the cache with the same coordinates and no call |
| `DeliverabilitySchema.ValidateRequest` | app/schemas/deliverability.py:5-27 | a request is accepted exactly when `restaurant`, both coordinates and `customer_postcode` are present, latitude is in [-90, 90], longitude is in [-180, 180], and any given radius is in [0.1, 50.0]. An omitted radius becomes 3.0 and an explicit null stays null. Each complaint is reported exactly when its cause is present |
| `DeliverabilitySchema.RadiusBoundaries` | app/schemas/deliverability.py:27 | the radius bounds are inclusive: 0.1 and 50.0 pass, 0.05 and 50.5 are rejected with only the radius complaint; an omitted radius defaults to 3.0 |
| `DeliverabilitySchema.ParseReason` | app/schemas/deliverability.py:35-37 | a `reason` string is accepted exactly when it is OK, INVALID_POSTCODE, GEOCODE_ERROR or OUT_OF_RANGE |
| `DeliverabilitySchema.ParseSource` | app/schemas/deliverability.py:38 | a `source` string is accepted exactly when it is "api" or "cache" |
| `DeliverabilitySchema.LiteralsRoundTrip` | app/schemas/deliverability.py:35-38 | each reason and source value and its literal determine each other |
| `Deliverability.EffectiveRadius` | app/routers/deliverability.py:81 | `radius_miles or 3.0`: a null or zero radius becomes 3.0, any other radius is kept |
| `Deliverability.CheckDeliverability` | app/routers/deliverability.py:23-104 | the handler's answer and call count are the specification's, computed from the cache as it was before the call. The cache changes only when the geocoder stored fresh coordinates |
| `Deliverability.BadRestaurantIsInternalError` | app/routers/deliverability.py:40-45 | out-of-range restaurant coordinates, and only they, give the 500 "Invalid restaurant coordinates" error, with no geocoding call |
| `Deliverability.BlankPostcodeAnswer` | app/routers/deliverability.py:48-58 | a blank postcode is answered not deliverable, without distance, with INVALID_POSTCODE, source "api" and the raw input echoed, and with no geocoding call |
| `Deliverability.SourceIsCacheMembership` | app/routers/deliverability.py:61-64 | the source is "cache" exactly when the key was cached before the lookup. A cached answer makes no call and uses the cached coordinates |
| `Deliverability.FailedLookupIsInvalidPostcode` | app/routers/deliverability.py:66-74 | no answer ever has reason GEOCODE_ERROR. An answer without a distance is not deliverable and has reason INVALID_POSTCODE |
| `Deliverability.ThresholdDecision` | app/routers/deliverability.py:77-104 | with coordinates found, the answer carries the distance. It is deliverable exactly when distance ≤ radius + 0.05; the reason is OK exactly then and OUT_OF_RANGE otherwise. The normalised postcode is echoed |
| `Deliverability.ValidatedRequestPassesGuard` | app/routers/deliverability.py:40-45 | a request that passed schema validation never reaches the coordinate error |
| `Deliverability.RepeatCheckReportsCache` | app/routers/deliverability.py:61-64 | after a check that geocoded through the provider, the same check gives the same answer with source "cache" and no call |
| `HubRise.HubRiseClient.constructor` | app/clients/hubrise.py:8-11 | the client keeps the access token and the API base URL |
| `HubRise.HubRiseClient.Headers` | app/clients/hubrise.py:13-18 | the headers always contain X-Access-Token, Content-Type and User-Agent. Extra headers override same-named keys and add new ones. Base headers not overridden keep their values, and no other key appears |
| `HubRise.HubRiseClient.RequestWithRetries` | app/clients/hubrise.py:20-42 | the loop's outcome, call count and sleeps are the retry specification's. It makes at least one call and at most `max_attempts` calls (one when `max_attempts` < 1), with one sleep between consecutive calls. Every attempt sends the same URL (base + path) and merged headers |
| `HubRise.HubRiseClient.Call` | app/clients/hubrise.py:44-116 | an endpoint helper sends its fixed verb on its path with the default policy: 3 attempts, backoff base 0.25, statuses {429, 500, 502, 503, 504} |
| `HubRise.RetryCallBound` | app/clients/hubrise.py:26-42 | from any attempt, the loop makes at least one call, never goes past `max_attempts`, and sleeps once less than it calls |
| `HubRise.RetryStep` | app/clients/hubrise.py:27-42 | one attempt: any other exception ends the loop; a status that is not retried or arrives on the last attempt is returned if 2xx and raised otherwise; a transport error on the last attempt is re-raised; a retryable reply with attempts left sleeps its delay and the next attempt follows |
| `HubRise.RetryClassification` | app/clients/hubrise.py:29-42 | every reply before the last was retryable. The last reply decides the outcome: a 2xx is returned with its status; any other final status raises with its status, and this includes a retryable status once attempts are used up; a transport error is re-raised only once attempts are used up; any other exception propagates |
| `HubRise.NonRetryableStatusIsFinal` | app/clients/hubrise.py:31-38 | a status outside the retry set ends the loop at that call: returned if 2xx, raised otherwise |
| `HubRise.TransportErrorsExhaust` | app/clients/hubrise.py:39-42 | transport errors on every attempt use up all `max_attempts` calls and re-raise the last error |
| `HubRise.RetryDelays` | app/clients/hubrise.py:32-41 | each sleep follows the reply before it. A retried response with an all-digit Retry-After sleeps that many seconds. Every other retry sleeps `backoff_base · 2^(attempt-1) + jitter`, and transport-error retries never use Retry-After |
| `HubRise.BackoffWindow` | app/clients/hubrise.py:41 | with the random draw in [0, 0.2], the backoff lies in [base·2^(n-1), base·2^(n-1) + 0.2] |
| `HubRise.ParseRouteRoundTrip` | app/clients/hubrise.py:48-116 | every endpoint whose identifiers contain no "/" is recovered from its verb and path |
| `HubRise.ParseRouteSound` | app/clients/hubrise.py:48-116 | a verb and path that parse as an endpoint are exactly that endpoint's verb and path |
| `HubRise.RequestLinesAreDistinct` | app/clients/hubrise.py:48-116 | with identifiers free of "/", no two endpoints send the same verb and path |
| `HubRise.SlashInIdentifierAliases` | app/clients/hubrise.py:113-116 | identifiers go into paths verbatim, so a location id "1/orders/2" makes `get_location` send the same GET path as `retrieve_order("1", "2")` |
| `HubRise.ListOrdersEndpoint` | app/clients/hubrise.py:59-73 | list_orders: a GET on the location's orders when `location_id` is non-empty, otherwise on the account's orders when `account_id` is non-empty, otherwise the ValueError |
| `Sms.Clean` | app/services/sms.py:24 | the cleaned number contains no space, has no whitespace at either end, and is no longer than the input |
| `Sms.CleanIdempotent` | app/services/sms.py:24 | cleaning twice is cleaning once |
| `Sms.E164Uk` | app/services/sms.py:16-35 | the result is either the cleaned number or a rewrite starting with "+". Rules by prefix: "+" is kept; "00" becomes "+" and the rest; a single leading "0" becomes "+44" and the rest; "44" gains "+"; a bare 9-to-11-digit number gains "+44"; a number no rule applies to is returned cleaned and otherwise unchanged |
| `Sms.RewriteIsClean` | app/services/sms.py:25-35 | every prefix rule applied to a clean number gives a clean number |
| `Sms.E164IsClean` | app/services/sms.py:24-35 | every result is already clean: no spaces, no surrounding whitespace |
| `Sms.E164Idempotent` | app/services/sms.py:24-35 | normalising a normalised number changes nothing |
| `Sms.NineDigitsGetCountryCode` | app/services/sms.py:22-34 | a bare nine-digit number that starts with neither "0" nor "44" gains "+44", although the function's description promises that only for 10 to 11 digits |
| `Sms.OrderMessageShape` | app/services/sms.py:127-130 | the message starts with "You have an order for {R} by {C} for {A}", contains " (Order #{ref})" exactly when a non-empty ref is given, and ends with ". Thank you for your order!" |
| `Sms.SmsService.constructor` | app/services/sms.py:39-54 | the service is enabled exactly when SMS_ENABLED is set and the ClickSend username and API key are non-empty. The auth header exists exactly when it is enabled, and the sender is kept |
| `Sms.SmsService.SendViaClickSend` | app/services/sms.py:56-71 | a disabled service answers "SMS service is disabled". An enabled one builds the ClickSend message payload: the E.164 form of the number as recipient, the message as body, and `_from` only when the sender is non-empty |
| `Sms.SmsService.SendOrderNotification` | app/services/sms.py:116-131 | disabled gives the disabled answer without building a message. Otherwise the payload carries the order message and the normalised customer number |
| `Sms.SmsService.SendCustomSms` | app/services/sms.py:133-136 | disabled gives the disabled answer without building a message. Otherwise the payload carries the given message and the normalised number |
| `Address.LastMatchAt` | app/services/address.py:20 | finds the largest split point not above `k` at which the postal-code pattern matches, and reports none exactly when no split point up to `k` matches |
| `Address.RegexMatch` | app/services/address.py:20 | `re.match(r"^(\d{5})\s+(.+)$", desc)` on a description that ends in no line feed, as the stripped description always does: group 2 starts at the largest matching split; no match exactly when no split point works |
| `Address.MatchedDescriptionSplits` | app/services/address.py:20-21 | on a trimmed description, a match splits it into five digits, a whitespace run and a city that begins with a non-whitespace character, so stripping the city changes nothing |
| `Address.MapItem` | app/services/address.py:15-31 | a suggestion is produced exactly when the item's type is "Address" and it has an id. A non-"Address" item maps to None, and an address item without an id fails validation. Otherwise label and address are the trimmed text, and description is the trimmed description, or None when that is empty. A matching description gives the five digits and the rest as postal code and city, with desc == postal + whitespace + city; a non-matching one gives "" and the whole description. countryCode is "DE" and matches `^[A-Z]{2}$`; formatted is built from text, postal code and city |
| `Address.FormattedShape` | app/services/address.py:30 | the formatted string always ends in "DE" and is a suffix of "{text}, {postal} {city}, DE" from which only commas and spaces were dropped. When the text starts with neither, nothing is dropped |
| `Address.FormattedOfBlanks` | app/services/address.py:30 | with empty text and postal code, the label is the city followed by ", DE" with its leading commas and spaces stripped; with an empty city as well it is "DE" |
| `Text.StripCharsDropsPrefix` | app/services/address.py:30 | `strip(chars)` of a string that ends in a kept character is unchanged by any prefix made of stripped characters |
| `Address.FormattedBlank` | app/services/address.py:15-30 | an "Address" item with an id whose text and description are absent or blank yields a suggestion whose formatted string is "DE" |
| `Orders.ParseStatus` | app/schemas/orders.py:11-22 | a status string is accepted exactly when it is one of the eleven values, and maps back to its literal |
| `Orders.StatusRoundTrip` | app/schemas/orders.py:11-22 | every status is read back from its literal |
| `Orders.ParseServiceType` | app/schemas/orders.py:24-27 | a service type is accepted exactly when it is delivery, collection or eat_in, and maps back to its literal |
| `Orders.ServiceTypeRoundTrip` | app/schemas/orders.py:24-27 | every service type is read back from its literal |
| `Orders.StripField` | app/schemas/orders.py:30-34 | a string field is stored as its trimmed slice: the kept part begins at the first non-whitespace character, everything cut off at either end is whitespace, and the kept part neither starts nor ends with whitespace; presence is unchanged |
| `Orders.BlankFieldIsAbsent` | app/schemas/orders.py:30-34 | a whitespace-only string field is stored as "" and so counts as absent |
| `Orders.NonBlankFieldIsPresent` | app/schemas/orders.py:30-34 | a string field with a non-whitespace character stays non-empty |
| `Orders.CustomerIdentityRule` | app/schemas/orders.py:152-161 | the order is accepted exactly when no two of the identity forms are present: customer id, list id together with private ref, and customer object. An accepted order is returned unchanged; otherwise the "Provide only one of" error is raised |
| `Orders.ValidateOrderCreate` | app/schemas/orders.py:123-161 | a missing or unknown status and an unknown service type are each reported exactly when present. Without them, the request is accepted exactly when the identity rule accepts the order built from the parsed values and the trimmed string fields, and is then that order; otherwise the identity conflict is the only error |
| `Orders.AtMostOneIdentityAccepted` | app/schemas/orders.py:157-161 | the rule accepts exactly when at most one identity form is present |
| `Orders.HalfListPairNeverConflicts` | app/schemas/orders.py:155 | a list id without a private ref is no identity, so it never causes a conflict |
| `Orders.BlankCustomerIdBesideGuest` | app/schemas/orders.py:144-155 | a whitespace-only customer id is trimmed to "", so it does not conflict with a guest customer |

## Left out

- Distance: the haversine computation of app/services/distance.py is floating-point trigonometry. The model takes the distance as an input function, and does not model `round(distance, 2)` on the reported distance.
- Real numbers: coordinates, radii and delays are exact reals. NaN, infinities and float rounding are not modelled.
- Cache expiry and eviction order: the TTL clock (POSTCODE_TTL_SECONDS) is not modelled, so entries never expire. When the full cache must evict, which entry goes is left open, because the cache library's policy is not part of this model.
- Concurrency: simultaneous requests share the postcode cache, and two of them may both report "api" for the same postcode. The model runs one request at a time.
- Time: the geocoder's 0.3-second sleep before its retry is not modelled. The HubRise loop's sleeps are returned as a list of delays rather than waited.
- Network: URLs, timeouts and request bodies are not modelled. The geocoder's request URL and the `json`/`params` bodies of the HubRise helpers are among them, as is how the base URL joins the path beyond string concatenation. Parsing the HubRise response body (`resp.json()`) is not modelled either.
- `Sms.SmsService.SendViaClickSend`: the model stops at the message payload the code builds (recipient, body, `_from`). The `shorten_urls` and `source` constants, the HTTP call and the response handling are not modelled.
- `Sms.SmsService.SendViaClickSend`, `Sms.SmsService.SendOrderNotification` and `Sms.SmsService.SendCustomSms`: as the source is written, every send on an enabled service ends in a NameError. app/services/sms.py calls `requests.post` (line 74) but never imports `requests`. Evaluating the `except requests.RequestException` clause (line 108) raises the NameError again, so it leaves `_send_via_clicksend` uncaught. The model describes the payload the code means to send, not that failure.
- `Sms.SmsService.constructor`, `Sms.SmsService.SendViaClickSend`, `Sms.SmsService.SendOrderNotification`, `Sms.SmsService.SendCustomSms` and `Sms.E164Uk`: app/schemas/sms.py uses `Union` in `SMSResponse.error_code` (line 21) but imports only `Optional` (line 2) and has no postponed annotations. As written, defining `SMSResponse` raises a NameError, so the import at app/services/sms.py:9 fails and the singleton at line 139 is never built. No path of the SMS service can run, the "disabled" answer included. The model describes the code as it behaves once `Union` is imported.
- `Address.RegexMatch`: Python's `$` also matches just before a final line feed, so `re.match` accepts "12345 Berlin\n" with group 2 "Berlin". The model rejects any line feed after the split point. The two agree on every stripped description, which is the only kind `_map_item` passes.
- The Basic auth header value (base64 of "username:api_key") is kept as its two parts.
- `AddressService.suggest` is indented inside `_map_item` after a `return`, so it can never run; it would be a network call anyway.
- Address items whose `Id` is a non-string value are not modelled, nor are `Text` or `Description` values that are not strings.
- The remaining `OrderCreate` fields (items, deals, payments and the rest), the other order schemas, and pydantic's `extra="allow"` passthrough are not modelled.
- Unicode: only ASCII text is modelled (see above). A non-ASCII digit that passes `isdigit()` and then fails `float()` in the Retry-After handling is outside the model.
- Routers other than the deliverability check, authentication, configuration loading and the static data files are not part of this model.
- `HubRise.RequestLinesAreDistinct` and `HubRise.ParseRouteRoundTrip`: both assume identifiers without "/". The client inserts identifiers verbatim, and `HubRise.SlashInIdentifierAliases` shows what happens otherwise.
