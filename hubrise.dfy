/** The HubRise API client: request headers, the retrying request loop and the
    endpoint paths (app/clients/hubrise.py). */
module HubRise {
  import opened Wrappers
  import opened Text

  // ---------------------------------------------------------------------------
  // headers()
  // ---------------------------------------------------------------------------

  const AccessTokenHeader: string := "X-Access-Token"
  const ContentTypeHeader: string := "Content-Type"
  const UserAgentHeader: string := "User-Agent"

  function BaseHeaders(token: string): map<string, string> {
    map[AccessTokenHeader := token,
        ContentTypeHeader := "application/json",
        UserAgentHeader := "hutbite-backend/1.0"]
  }

  // ---------------------------------------------------------------------------
  // _request_with_retries
  // ---------------------------------------------------------------------------

  /** `_RETRY_STATUSES` */
  const RetryStatuses: set<int> := {429, 500, 502, 503, 504}
  const DefaultMaxAttempts: int := 3
  const DefaultBackoffBase: real := 0.25
  /** Upper end of `random.uniform(0, 0.2)`. */
  const JitterMax: real := 0.2

  /** The httpx transport errors the loop catches. */
  datatype TransportKind = ReadTimeout | ConnectTimeout | RemoteProtocolError | OtherTransportError

  /** What one `self._http.request(...)` produced. */
  datatype Reply =
    | Response(status: int, retryAfter: Option<string>)
    | TransportFailure(kind: TransportKind)
    | OtherException    // anything that is not a transport error: never caught

  /** The transport as a script: call `i` gets `script[i]`; a call past the end of
      the script raises an exception that is not a transport error. */
  function ReplyAt(script: seq<Reply>, i: nat): Reply {
    if i < |script| then script[i] else OtherException
  }

  /** How a request ends. */
  datatype Outcome =
    | Returned(status: int)                 // a 2xx response is returned
    | StatusRaised(status: int)             // `raise_for_status()` raises httpx.HTTPStatusError
    | TransportRaised(kind: TransportKind)  // the last transport error is re-raised
    | OtherRaised                           // propagated unchanged

  /** The outcome, the number of transport calls, and the sleeps between them. */
  datatype Trace = Trace(outcome: Outcome, calls: nat, delays: seq<real>)

  predicate Is2xx(status: int) {
    200 <= status < 300
  }

  function Pow2(n: nat): nat {
    if n == 0 then 1 else 2 * Pow2(n - 1)
  }

  /** `backoff_base * 2 ** (attempt - 1) + random.uniform(0, 0.2)`, where
      `jitter(attempt)` is the random draw made after attempt `attempt`. */
  function Backoff(attempt: nat, backoffBase: real, jitter: nat -> real): real
    requires attempt >= 1
  {
    backoffBase * Pow2(attempt - 1) as real + jitter(attempt)
  }

  /** The sleep after a reply that is retried: a `Retry-After` header made only
      of digits gives the delay; everything else uses the backoff. */
  function DelayAfter(reply: Reply, attempt: nat, backoffBase: real, jitter: nat -> real): real
    requires attempt >= 1
  {
    if reply.Response? && reply.retryAfter.Some? && IsDigitString(reply.retryAfter.value)
    then DigitsValue(reply.retryAfter.value) as real
    else Backoff(attempt, backoffBase, jitter)
  }

  /** A reply that is retried while attempts remain. */
  predicate Retryable(reply: Reply, retryStatuses: set<int>) {
    (reply.Response? && reply.status in retryStatuses) || reply.TransportFailure?
  }

  function Prepend(delay: real, t: Trace): Trace {
    Trace(t.outcome, t.calls + 1, [delay] + t.delays)
  }

  /** The loop from attempt number `attempt` (1-based) on. */
  function RetryFrom(script: seq<Reply>, attempt: nat, maxAttempts: int, backoffBase: real,
                     retryStatuses: set<int>, jitter: nat -> real): Trace
    requires attempt >= 1
    decreases maxAttempts - attempt
  {
    var reply := ReplyAt(script, attempt - 1);
    match reply
    case Response(status, _) =>
      if status in retryStatuses && attempt < maxAttempts then
        Prepend(DelayAfter(reply, attempt, backoffBase, jitter),
                RetryFrom(script, attempt + 1, maxAttempts, backoffBase, retryStatuses, jitter))
      else if Is2xx(status) then Trace(Returned(status), 1, [])
      else Trace(StatusRaised(status), 1, [])
    case TransportFailure(kind) =>
      if attempt >= maxAttempts then Trace(TransportRaised(kind), 1, [])
      else Prepend(DelayAfter(reply, attempt, backoffBase, jitter),
                   RetryFrom(script, attempt + 1, maxAttempts, backoffBase, retryStatuses, jitter))
    case OtherException => Trace(OtherRaised, 1, [])
  }

  /** A trace preceded by the attempts that slept `delays`. */
  function After(delays: seq<real>, t: Trace): Trace {
    Trace(t.outcome, t.calls + |delays|, delays + t.delays)
  }

  /** One step of the loop: the reply of attempt `attempt` either ends it or is
      retried after its delay. */
  lemma RetryStep(script: seq<Reply>, attempt: nat, maxAttempts: int, backoffBase: real,
                  retryStatuses: set<int>, jitter: nat -> real)
    requires attempt >= 1
    ensures var reply := ReplyAt(script, attempt - 1);
      var t := RetryFrom(script, attempt, maxAttempts, backoffBase, retryStatuses, jitter);
      && (reply.OtherException? ==> t == Trace(OtherRaised, 1, []))
      && (reply.Response? && !(reply.status in retryStatuses && attempt < maxAttempts) ==>
            t == Trace(if Is2xx(reply.status) then Returned(reply.status) else StatusRaised(reply.status), 1, []))
      && (reply.TransportFailure? && attempt >= maxAttempts ==> t == Trace(TransportRaised(reply.kind), 1, []))
      && (Retryable(reply, retryStatuses) && attempt < maxAttempts ==>
            t == Prepend(DelayAfter(reply, attempt, backoffBase, jitter),
                         RetryFrom(script, attempt + 1, maxAttempts, backoffBase, retryStatuses, jitter)))
  {
  }

  /** The trace of a loop that stops at the next call, after sleeping `delays`. */
  lemma AfterFinal(delays: seq<real>, outcome: Outcome)
    ensures After(delays, Trace(outcome, 1, [])) == Trace(outcome, |delays| + 1, delays)
  {
    assert delays + [] == delays;
  }

  lemma AfterPrepend(delays: seq<real>, delay: real, t: Trace)
    ensures After(delays, Prepend(delay, t)) == After(delays + [delay], t)
  {
    assert delays + ([delay] + t.delays) == (delays + [delay]) + t.delays;
  }

  /** The request the client sends on every attempt. */
  datatype OutboundRequest = OutboundRequest(verb: Verb, url: string, headers: map<string, string>)

  // ---------------------------------------------------------------------------
  // Endpoints
  // ---------------------------------------------------------------------------

  datatype Verb = Get | Post | Patch

  /** The operations the client offers, with the identifiers that go into their paths. */
  datatype Endpoint =
    | CreateOrder(locationId: string)
    | RetrieveOrder(locationId: string, orderId: string)
    | ListLocationOrders(locationId: string)
    | ListAccountOrders(accountId: string)
    | UpdateOrder(locationId: string, orderId: string)
    | CreateDeliveryQuote(locationId: string, orderId: string)
    | AcceptDeliveryQuote(locationId: string, orderId: string, quoteId: string)
    | CreateDelivery(locationId: string, orderId: string)
    | RetrieveDelivery(locationId: string, orderId: string)
    | UpdateDelivery(locationId: string, orderId: string)
    | GetCatalog(catalogId: string)
    | GetLocation(locationId: string)

  function VerbOf(e: Endpoint): Verb {
    match e
    case CreateOrder(_) => Post
    case RetrieveOrder(_, _) => Get
    case ListLocationOrders(_) => Get
    case ListAccountOrders(_) => Get
    case UpdateOrder(_, _) => Patch
    case CreateDeliveryQuote(_, _) => Post
    case AcceptDeliveryQuote(_, _, _) => Post
    case CreateDelivery(_, _) => Post
    case RetrieveDelivery(_, _) => Get
    case UpdateDelivery(_, _) => Patch
    case GetCatalog(_) => Get
    case GetLocation(_) => Get
  }

  /** The path segments after the leading "/". */
  function Segments(e: Endpoint): (segs: seq<string>)
    ensures |segs| >= 2
  {
    match e
    case CreateOrder(l) => ["locations", l, "orders"]
    case RetrieveOrder(l, o) => ["locations", l, "orders", o]
    case ListLocationOrders(l) => ["locations", l, "orders"]
    case ListAccountOrders(a) => ["accounts", a, "orders"]
    case UpdateOrder(l, o) => ["locations", l, "orders", o]
    case CreateDeliveryQuote(l, o) => ["locations", l, "orders", o, "delivery_quotes"]
    case AcceptDeliveryQuote(l, o, q) => ["locations", l, "orders", o, "delivery_quotes", q, "accept"]
    case CreateDelivery(l, o) => ["locations", l, "orders", o, "delivery"]
    case RetrieveDelivery(l, o) => ["locations", l, "orders", o, "delivery"]
    case UpdateDelivery(l, o) => ["locations", l, "orders", o, "delivery"]
    case GetCatalog(c) => ["catalogs", c]
    case GetLocation(l) => ["locations", l]
  }

  predicate SlashFree(s: string) {
    forall i :: 0 <= i < |s| ==> s[i] != '/'
  }

  /** Every identifier of the endpoint is free of "/". */
  predicate PlainIds(e: Endpoint) {
    forall k :: 0 <= k < |Segments(e)| ==> SlashFree(Segments(e)[k])
  }

  /** Segments joined with "/". */
  function Join(segs: seq<string>): string
    requires |segs| >= 1
  {
    if |segs| == 1 then segs[0] else segs[0] + "/" + Join(segs[1..])
  }

  /** The f-string path of the endpoint, e.g. `/locations/{l}/orders/{o}/delivery`. */
  function Path(e: Endpoint): string {
    "/" + Join(Segments(e))
  }

  /** Splits on every "/"; the inverse of Join. */
  function Split(s: string): (segs: seq<string>)
    ensures |segs| >= 1
  {
    if s == [] then [[]]
    else if s[0] == '/' then [[]] + Split(s[1..])
    else var rest := Split(s[1..]); [[s[0]] + rest[0]] + rest[1..]
  }

  /** The endpoint a segment list names under a verb, if any. */
  function RouteOf(verb: Verb, segs: seq<string>): Option<Endpoint> {
    if |segs| == 2 && segs[0] == "catalogs" then
      (if verb == Get then Some(GetCatalog(segs[1])) else None)
    else if |segs| == 2 && segs[0] == "locations" then
      (if verb == Get then Some(GetLocation(segs[1])) else None)
    else if |segs| == 3 && segs[0] == "accounts" && segs[2] == "orders" then
      (if verb == Get then Some(ListAccountOrders(segs[1])) else None)
    else if |segs| < 3 || segs[0] != "locations" || segs[2] != "orders" then None
    else if |segs| == 3 then
      (if verb == Get then Some(ListLocationOrders(segs[1]))
       else if verb == Post then Some(CreateOrder(segs[1])) else None)
    else if |segs| == 4 then
      (if verb == Get then Some(RetrieveOrder(segs[1], segs[3]))
       else if verb == Patch then Some(UpdateOrder(segs[1], segs[3])) else None)
    else if |segs| == 5 && segs[4] == "delivery_quotes" then
      (if verb == Post then Some(CreateDeliveryQuote(segs[1], segs[3])) else None)
    else if |segs| == 5 && segs[4] == "delivery" then
      (if verb == Get then Some(RetrieveDelivery(segs[1], segs[3]))
       else if verb == Post then Some(CreateDelivery(segs[1], segs[3]))
       else Some(UpdateDelivery(segs[1], segs[3])))
    else if |segs| == 7 && segs[4] == "delivery_quotes" && segs[6] == "accept" then
      (if verb == Post then Some(AcceptDeliveryQuote(segs[1], segs[3], segs[5])) else None)
    else None
  }

  /** Reads a request line back into the endpoint that sends it. */
  function ParseRoute(verb: Verb, path: string): Option<Endpoint> {
    if path == [] || path[0] != '/' then None else RouteOf(verb, Split(path[1..]))
  }

  lemma RouteOfSegments(e: Endpoint)
    ensures RouteOf(VerbOf(e), Segments(e)) == Some(e)
  {
  }

  lemma RouteOfNames(verb: Verb, segs: seq<string>)
    requires RouteOf(verb, segs).Some?
    ensures VerbOf(RouteOf(verb, segs).value) == verb && Segments(RouteOf(verb, segs).value) == segs
  {
  }

  lemma {:induction false} SplitSlashFree(s: string)
    requires SlashFree(s)
    ensures Split(s) == [s]
    decreases |s|
  {
    if s != [] {
      SplitSlashFree(s[1..]);
      assert [s[0]] + s[1..] == s;
    }
  }

  lemma {:induction false} SplitAtSlash(x: string, y: string)
    requires SlashFree(x)
    ensures Split(x + "/" + y) == [x] + Split(y)
    decreases |x|
  {
    if x == [] {
      assert x + "/" + y == "/" + y;
      assert ("/" + y)[1..] == y;
    } else {
      assert (x + "/" + y)[1..] == x[1..] + "/" + y;
      SplitAtSlash(x[1..], y);
      assert [x[0]] + x[1..] == x;
    }
  }

  lemma {:induction false} SplitJoin(segs: seq<string>)
    requires |segs| >= 1
    requires forall k :: 0 <= k < |segs| ==> SlashFree(segs[k])
    ensures Split(Join(segs)) == segs
    decreases |segs|
  {
    if |segs| == 1 {
      SplitSlashFree(segs[0]);
    } else {
      SplitAtSlash(segs[0], Join(segs[1..]));
      SplitJoin(segs[1..]);
    }
  }

  /** Joining a first segment onto the rest. */
  lemma JoinCons(x: string, rest: seq<string>)
    requires |rest| >= 1
    ensures Join([x] + rest) == x + "/" + Join(rest)
  {
    assert ([x] + rest)[1..] == rest;
  }

  lemma ConcatAssoc(c: char, x: string, tail: string)
    ensures [c] + x + "/" + tail == [c] + (x + "/" + tail)
  {
  }

  /** Prepending a character to the first segment prepends it to the joined string. */
  lemma JoinConsHead(c: char, segs: seq<string>)
    requires |segs| >= 1
    ensures Join([[c] + segs[0]] + segs[1..]) == [c] + Join(segs)
  {
    var x, rest := segs[0], segs[1..];
    if |segs| == 1 {
      assert [[c] + x] + rest == [[c] + x];
    } else {
      assert segs == [x] + rest;
      JoinCons([c] + x, rest);
      JoinCons(x, rest);
      ConcatAssoc(c, x, Join(rest));
    }
  }

  lemma {:induction false} JoinSplit(s: string)
    ensures Join(Split(s)) == s
    decreases |s|
  {
    if s == [] {
    } else if s[0] == '/' {
      JoinSplit(s[1..]);
      assert ([[]] + Split(s[1..]))[1..] == Split(s[1..]);
      assert s == [] + "/" + s[1..];
    } else {
      JoinSplit(s[1..]);
      JoinConsHead(s[0], Split(s[1..]));
      assert s == [s[0]] + s[1..];
    }
  }

  /** Every endpoint whose identifiers hold no "/" is read back from its verb
      and path. */
  lemma ParseRouteRoundTrip(e: Endpoint)
    requires PlainIds(e)
    ensures ParseRoute(VerbOf(e), Path(e)) == Some(e)
  {
    assert Path(e)[1..] == Join(Segments(e));
    SplitJoin(Segments(e));
    RouteOfSegments(e);
  }

  /** A request line read as an endpoint is exactly that endpoint's verb and path. */
  lemma ParseRouteSound(verb: Verb, path: string)
    requires ParseRoute(verb, path).Some?
    ensures VerbOf(ParseRoute(verb, path).value) == verb
    ensures Path(ParseRoute(verb, path).value) == path
  {
    var e := ParseRoute(verb, path).value;
    RouteOfNames(verb, Split(path[1..]));
    JoinSplit(path[1..]);
    assert path == "/" + path[1..];
  }

  /** With plain identifiers, no two endpoints send the same request line. */
  lemma RequestLinesAreDistinct(e1: Endpoint, e2: Endpoint)
    requires PlainIds(e1) && PlainIds(e2)
    requires VerbOf(e1) == VerbOf(e2) && Path(e1) == Path(e2)
    ensures e1 == e2
  {
    ParseRouteRoundTrip(e1);
    ParseRouteRoundTrip(e2);
  }

  /** Identifiers go into paths verbatim, so one holding "/" can name another endpoint. */
  lemma SlashInIdentifierAliases()
    ensures VerbOf(GetLocation("1/orders/2")) == VerbOf(RetrieveOrder("1", "2"))
    ensures Path(GetLocation("1/orders/2")) == Path(RetrieveOrder("1", "2"))
  {
  }

  predicate Truthy(s: Option<string>) {
    s.Some? && s.value != []
  }

  /** list_orders: the location's orders when a location id is given, otherwise
      the account's orders when an account id is given, otherwise ValueError. */
  function ListOrdersEndpoint(locationId: Option<string>, accountId: Option<string>): (r: Result<Endpoint, string>)
    ensures r.Success? <==> Truthy(locationId) || Truthy(accountId)
    ensures r.Success? ==> VerbOf(r.value) == Get
    ensures Truthy(locationId) ==> r.Success? && Segments(r.value) == ["locations", locationId.value, "orders"]
    ensures !Truthy(locationId) && Truthy(accountId) ==>
      r.Success? && Segments(r.value) == ["accounts", accountId.value, "orders"]
  {
    if Truthy(locationId) then Success(ListLocationOrders(locationId.value))
    else if Truthy(accountId) then Success(ListAccountOrders(accountId.value))
    else Failure("location_id or account_id required")
  }

  // ---------------------------------------------------------------------------
  // The client
  // ---------------------------------------------------------------------------

  /** `HubRiseClient`: an access token and the API base URL, fixed at construction. */
  class HubRiseClient {
    const token: string
    const base: string

    constructor (accessToken: string, apiUrl: string)
      ensures token == accessToken && base == apiUrl
    {
      token := accessToken;
      base := apiUrl;
    }

    /** `headers(extra)`: the three base headers, overridden and extended by `extra`. */
    function Headers(extra: Option<map<string, string>>): (h: map<string, string>)
      ensures AccessTokenHeader in h && ContentTypeHeader in h && UserAgentHeader in h
      ensures extra.Some? ==> forall k :: k in extra.value ==> k in h && h[k] == extra.value[k]
      ensures forall k :: k in h ==> k in BaseHeaders(token) || (extra.Some? && k in extra.value)
      ensures forall k :: k in BaseHeaders(token) && (extra.None? || k !in extra.value) ==>
        h[k] == BaseHeaders(token)[k]
    {
      BaseHeaders(token) + (if extra.Some? then extra.value else map[])
    }

    /** `_request_with_retries`: one call per attempt; a retryable status is
        retried while attempts remain, a transport error likewise, and the last
        one is raised; every other reply ends the loop. */
    method RequestWithRetries(verb: Verb, path: string, extra: Option<map<string, string>>,
                              maxAttempts: int, backoffBase: real, retryStatuses: set<int>,
                              script: seq<Reply>, jitter: nat -> real)
      returns (sent: OutboundRequest, outcome: Outcome, calls: nat, delays: seq<real>)
      ensures sent == OutboundRequest(verb, base + path, Headers(extra))
      ensures Trace(outcome, calls, delays) == RetryFrom(script, 1, maxAttempts, backoffBase, retryStatuses, jitter)
      ensures 1 <= calls && (calls == 1 || calls <= maxAttempts)
      ensures |delays| == calls - 1
    {
      sent := OutboundRequest(verb, base + path, Headers(extra));
      var attempt: nat := 0;
      delays := [];
      while true
        invariant |delays| == attempt
        invariant attempt == 0 || attempt < maxAttempts
        invariant RetryFrom(script, 1, maxAttempts, backoffBase, retryStatuses, jitter)
               == After(delays, RetryFrom(script, attempt + 1, maxAttempts, backoffBase, retryStatuses, jitter))
        decreases maxAttempts - attempt
      {
        attempt := attempt + 1;
        var reply := ReplyAt(script, attempt - 1);
        RetryStep(script, attempt, maxAttempts, backoffBase, retryStatuses, jitter);
        if reply.OtherException? {
          AfterFinal(delays, OtherRaised);
          return sent, OtherRaised, attempt, delays;
        }
        if reply.Response? && !(reply.status in retryStatuses && attempt < maxAttempts) {
          // raise_for_status()
          outcome := if Is2xx(reply.status) then Returned(reply.status) else StatusRaised(reply.status);
          AfterFinal(delays, outcome);
          return sent, outcome, attempt, delays;
        }
        if reply.TransportFailure? && attempt >= maxAttempts {
          AfterFinal(delays, TransportRaised(reply.kind));
          return sent, TransportRaised(reply.kind), attempt, delays;
        }
        var delay: real;
        if reply.Response? && reply.retryAfter.Some? && IsDigitString(reply.retryAfter.value) {
          delay := DigitsValue(reply.retryAfter.value) as real;
        } else {
          delay := Backoff(attempt, backoffBase, jitter);
        }
        assert delay == DelayAfter(reply, attempt, backoffBase, jitter);
        ghost var next := RetryFrom(script, attempt + 1, maxAttempts, backoffBase, retryStatuses, jitter);
        AfterPrepend(delays, delay, next);
        delays := delays + [delay];
      }
    }

    /** One endpoint helper: its verb on its path, with the default retry policy. */
    method Call(e: Endpoint, script: seq<Reply>, jitter: nat -> real)
      returns (sent: OutboundRequest, outcome: Outcome, calls: nat, delays: seq<real>)
      ensures sent == OutboundRequest(VerbOf(e), base + Path(e), Headers(None))
      ensures Trace(outcome, calls, delays)
           == RetryFrom(script, 1, DefaultMaxAttempts, DefaultBackoffBase, RetryStatuses, jitter)
      ensures 1 <= calls <= DefaultMaxAttempts
    {
      sent, outcome, calls, delays := RequestWithRetries(VerbOf(e), Path(e), None, DefaultMaxAttempts,
                                                         DefaultBackoffBase, RetryStatuses, script, jitter);
    }
  }

  // ---------------------------------------------------------------------------
  // Properties of the retry loop
  // ---------------------------------------------------------------------------

  function Max(a: int, b: int): int {
    if a >= b then a else b
  }

  /** At least one and at most max(1, max_attempts) calls, one sleep between
      consecutive calls. */
  lemma {:induction false} RetryCallBound(script: seq<Reply>, attempt: nat, maxAttempts: int, backoffBase: real,
                                          retryStatuses: set<int>, jitter: nat -> real)
    requires attempt >= 1
    ensures var t := RetryFrom(script, attempt, maxAttempts, backoffBase, retryStatuses, jitter);
      && 1 <= t.calls
      && attempt + t.calls - 1 <= Max(attempt, maxAttempts)
      && |t.delays| == t.calls - 1
    decreases maxAttempts - attempt
  {
    if attempt < maxAttempts {
      RetryCallBound(script, attempt + 1, maxAttempts, backoffBase, retryStatuses, jitter);
    }
  }

  /** Every reply before the last was retryable, and the last decides the outcome:
      a 2xx is returned, another status raises, a transport error is re-raised only
      once attempts are used up, anything else propagates. */
  lemma {:induction false} RetryClassification(script: seq<Reply>, attempt: nat, maxAttempts: int, backoffBase: real,
                                               retryStatuses: set<int>, jitter: nat -> real)
    requires attempt >= 1
    ensures var t := RetryFrom(script, attempt, maxAttempts, backoffBase, retryStatuses, jitter);
      var last := ReplyAt(script, attempt + t.calls - 2);
      && t.calls >= 1
      && (forall k :: attempt - 1 <= k < attempt + t.calls - 2 ==> Retryable(ReplyAt(script, k), retryStatuses))
      && (t.outcome.Returned? <==> last.Response? && Is2xx(last.status))
      && (t.outcome.Returned? || t.outcome.StatusRaised? ==> last.Response? && t.outcome.status == last.status)
      && (t.outcome.StatusRaised? <==> last.Response? && !Is2xx(last.status))
      && (t.outcome.TransportRaised? <==> last.TransportFailure?)
      && (t.outcome.TransportRaised? ==> t.outcome.kind == last.kind && attempt + t.calls - 1 >= maxAttempts)
      && (last.Response? && last.status in retryStatuses ==> attempt + t.calls - 1 >= maxAttempts)
    decreases maxAttempts - attempt
  {
    var reply := ReplyAt(script, attempt - 1);
    if Retryable(reply, retryStatuses) && attempt < maxAttempts {
      RetryClassification(script, attempt + 1, maxAttempts, backoffBase, retryStatuses, jitter);
    }
  }

  /** A status outside the retry set ends the loop at once: no retry, whatever
      the attempt. */
  lemma NonRetryableStatusIsFinal(script: seq<Reply>, attempt: nat, maxAttempts: int, backoffBase: real,
                                  retryStatuses: set<int>, jitter: nat -> real)
    requires attempt >= 1
    requires ReplyAt(script, attempt - 1).Response? && ReplyAt(script, attempt - 1).status !in retryStatuses
    ensures var status := ReplyAt(script, attempt - 1).status;
      RetryFrom(script, attempt, maxAttempts, backoffBase, retryStatuses, jitter)
      == Trace(if Is2xx(status) then Returned(status) else StatusRaised(status), 1, [])
  {
  }

  /** Transport errors on every attempt use up all attempts and re-raise the last. */
  lemma {:induction false} TransportErrorsExhaust(script: seq<Reply>, attempt: nat, maxAttempts: int, backoffBase: real,
                                                  retryStatuses: set<int>, jitter: nat -> real)
    requires attempt >= 1
    requires forall k :: attempt - 1 <= k < maxAttempts ==> ReplyAt(script, k).TransportFailure?
    requires ReplyAt(script, attempt - 1).TransportFailure?
    ensures var t := RetryFrom(script, attempt, maxAttempts, backoffBase, retryStatuses, jitter);
      && t.calls == Max(1, maxAttempts - attempt + 1)
      && t.outcome == TransportRaised(ReplyAt(script, attempt + t.calls - 2).kind)
    decreases maxAttempts - attempt
  {
    if attempt < maxAttempts {
      TransportErrorsExhaust(script, attempt + 1, maxAttempts, backoffBase, retryStatuses, jitter);
    }
  }

  /** Each sleep follows the reply before it: a digits-only `Retry-After` of a
      retried response gives the delay, otherwise the jittered exponential
      backoff; transport errors never use Retry-After. */
  lemma {:induction false} RetryDelays(script: seq<Reply>, attempt: nat, maxAttempts: int, backoffBase: real,
                                       retryStatuses: set<int>, jitter: nat -> real)
    requires attempt >= 1
    ensures var t := RetryFrom(script, attempt, maxAttempts, backoffBase, retryStatuses, jitter);
      && |t.delays| == t.calls - 1
      && (forall k :: 0 <= k < |t.delays| ==>
            t.delays[k] == DelayAfter(ReplyAt(script, attempt - 1 + k), attempt + k, backoffBase, jitter))
      && (forall k :: 0 <= k < |t.delays| && ReplyAt(script, attempt - 1 + k).TransportFailure? ==>
            t.delays[k] == Backoff(attempt + k, backoffBase, jitter))
    decreases maxAttempts - attempt
  {
    var reply := ReplyAt(script, attempt - 1);
    if Retryable(reply, retryStatuses) && attempt < maxAttempts {
      RetryDelays(script, attempt + 1, maxAttempts, backoffBase, retryStatuses, jitter);
      var t := RetryFrom(script, attempt, maxAttempts, backoffBase, retryStatuses, jitter);
      var rest := RetryFrom(script, attempt + 1, maxAttempts, backoffBase, retryStatuses, jitter);
      assert t.delays == [DelayAfter(reply, attempt, backoffBase, jitter)] + rest.delays;
      forall k | 1 <= k < |t.delays|
        ensures t.delays[k] == DelayAfter(ReplyAt(script, attempt - 1 + k), attempt + k, backoffBase, jitter)
      {
        assert t.delays[k] == rest.delays[k - 1];
      }
    }
  }

  /** The backoff stays within 0.2 s above `base * 2^(attempt - 1)` while the
      random draw lies in [0, 0.2]. */
  lemma BackoffWindow(attempt: nat, backoffBase: real, jitter: nat -> real)
    requires attempt >= 1
    requires 0.0 <= jitter(attempt) <= JitterMax
    ensures backoffBase * Pow2(attempt - 1) as real <= Backoff(attempt, backoffBase, jitter)
    ensures Backoff(attempt, backoffBase, jitter) <= backoffBase * Pow2(attempt - 1) as real + 0.2
  {
    var floor := backoffBase * Pow2(attempt - 1) as real;
    assert Backoff(attempt, backoffBase, jitter) == floor + jitter(attempt);
  }
}
