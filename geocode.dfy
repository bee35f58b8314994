/** Postcode normalisation, the postcode geocoder with its two-attempt retry,
    and the process-wide postcode cache it fills (app/services/geocode.py). */
module Geocode {
  import opened Wrappers
  import opened Text

  // ---------------------------------------------------------------------------
  // normalize_postcode
  // ---------------------------------------------------------------------------

  /** The postcode trimmed, upper-cased and with every whitespace character removed. */
  function Collapse(postcode: string): (c: string)
    ensures forall i :: 0 <= i < |c| ==> !IsSpace(c[i]) && UpperChar(c[i]) == c[i]
  {
    var u := ToUpper(Strip(postcode));
    var c := RemoveWhitespace(u);
    assert forall i :: 0 <= i < |c| ==> UpperChar(c[i]) == c[i] by {
      forall i | 0 <= i < |c| ensures UpperChar(c[i]) == c[i] {
        var j :| 0 <= j < |u| && u[j] == c[i];
      }
    }
    c
  }

  /** Canonical key of a postcode: empty input gives "", otherwise the collapsed
      form with one space before its last three characters once it has at least five. */
  function NormalizePostcode(postcode: string): (r: string)
    ensures postcode == [] ==> r == []
    ensures postcode != [] && |Collapse(postcode)| < 5 ==> r == Collapse(postcode)
    ensures postcode != [] && |Collapse(postcode)| >= 5 ==>
      var n := Collapse(postcode);
      && |r| == |n| + 1
      && r[|r| - 4] == ' '
      && r[..|r| - 4] == n[..|n| - 3]
      && r[|r| - 3..] == n[|n| - 3..]
  {
    if postcode == [] then []
    else
      var n := Collapse(postcode);
      if |n| >= 5 then n[..|n| - 3] + " " + n[|n| - 3..] else n
  }

  lemma ToUpperAppend(a: string, b: string)
    ensures ToUpper(a + b) == ToUpper(a) + ToUpper(b)
  {
    assert ToUpper(a + b) == ToUpper(a) + ToUpper(b) by {
      forall i | 0 <= i < |a + b| ensures ToUpper(a + b)[i] == (ToUpper(a) + ToUpper(b))[i] {
        if i < |a| { assert (a + b)[i] == a[i]; } else { assert (a + b)[i] == b[i - |a|]; }
      }
    }
  }

  lemma RemoveWhitespaceUpperOfSpaces(s: string)
    requires forall i :: 0 <= i < |s| ==> IsSpace(s[i])
    ensures RemoveWhitespace(ToUpper(s)) == []
  {
    RemoveWhitespaceDropsAll(ToUpper(s));
  }

  lemma RemoveWhitespaceUpperAround(pre: string, mid: string, post: string)
    requires forall i :: 0 <= i < |pre| ==> IsSpace(pre[i])
    requires forall i :: 0 <= i < |post| ==> IsSpace(post[i])
    ensures RemoveWhitespace(ToUpper(pre + mid + post)) == RemoveWhitespace(ToUpper(mid))
  {
    ToUpperAppend(pre + mid, post);
    ToUpperAppend(pre, mid);
    var a, b, c := ToUpper(pre), ToUpper(mid), ToUpper(post);
    assert ToUpper(pre + mid + post) == a + b + c;
    RemoveWhitespaceAppend(a + b, c);
    RemoveWhitespaceAppend(a, b);
    RemoveWhitespaceUpperOfSpaces(pre);
    RemoveWhitespaceUpperOfSpaces(post);
    assert RemoveWhitespace(a + b + c) == [] + RemoveWhitespace(b) + [];
  }

  /** Stripping first is redundant: the key is the upper-cased input with all
      whitespace deleted. */
  lemma CollapseIsUpperWithoutWhitespace(postcode: string)
    ensures Collapse(postcode) == RemoveWhitespace(ToUpper(postcode))
  {
    var a := LeadingIn(postcode, Whitespace);
    var r := Strip(postcode);
    var pre, post := postcode[..a], postcode[a + |r|..];
    assert postcode == pre + r + post;
    RemoveWhitespaceUpperAround(pre, r, post);
  }

  /** Empty and whitespace-only postcodes normalise to "". */
  lemma BlankPostcodeIsEmpty(postcode: string)
    requires forall i :: 0 <= i < |postcode| ==> IsSpace(postcode[i])
    ensures NormalizePostcode(postcode) == []
  {
    CollapseIsUpperWithoutWhitespace(postcode);
    RemoveWhitespaceUpperOfSpaces(postcode);
  }

  /** A postcode with a non-whitespace character never normalises to "". */
  lemma NonBlankPostcodeIsKept(postcode: string, k: nat)
    requires k < |postcode| && !IsSpace(postcode[k])
    ensures NormalizePostcode(postcode) != []
  {
    CollapseIsUpperWithoutWhitespace(postcode);
    RemoveWhitespaceFindsNonSpace(ToUpper(postcode), k);
  }

  lemma RemoveWhitespaceTrailingSpace(front: string)
    requires forall i :: 0 <= i < |front| ==> !IsSpace(front[i])
    ensures RemoveWhitespace(front + [' ']) == front
  {
    RemoveWhitespaceKeeps(front);
    RemoveWhitespaceAppend(front, [' ']);
    assert RemoveWhitespace([' ']) == [];
  }

  lemma RemoveWhitespaceKeepsTail(x: string, back: string)
    requires forall i :: 0 <= i < |back| ==> !IsSpace(back[i])
    ensures RemoveWhitespace(x + back) == RemoveWhitespace(x) + back
  {
    RemoveWhitespaceKeeps(back);
    RemoveWhitespaceAppend(x, back);
  }

  /** Deleting whitespace from two whitespace-free parts joined by a space
      joins the parts. */
  lemma RemoveInsertedSpace(front: string, back: string)
    requires forall i :: 0 <= i < |front| ==> !IsSpace(front[i])
    requires forall i :: 0 <= i < |back| ==> !IsSpace(back[i])
    ensures RemoveWhitespace(front + " " + back) == front + back
  {
    RemoveWhitespaceKeepsTail(front + [' '], back);
    RemoveWhitespaceTrailingSpace(front);
  }

  /** Deleting the inserted space gives back the collapsed form. */
  lemma NormalizeWithoutSpaceIsCollapse(postcode: string)
    ensures RemoveWhitespace(NormalizePostcode(postcode)) == Collapse(postcode)
  {
    var n := Collapse(postcode);
    RemoveWhitespaceKeeps(n);
    if postcode != [] && |n| >= 5 {
      var k := |n| - 3;
      var front, back := n[..k], n[k..];
      assert n == front + back;
      assert forall i :: 0 <= i < |front| ==> front[i] == n[i];
      assert forall i :: 0 <= i < |back| ==> back[i] == n[k + i];
      RemoveInsertedSpace(front, back);
    } else if postcode == [] {
      assert Strip(postcode) == [];
    }
  }

  /** A normalised postcode has non-whitespace ends and no lower-case letter. */
  lemma NormalizedIsTrimmedUpper(postcode: string)
    requires NormalizePostcode(postcode) != []
    ensures var t := NormalizePostcode(postcode);
      !IsSpace(t[0]) && !IsSpace(t[|t| - 1]) && ToUpper(t) == t
  {
    var t := NormalizePostcode(postcode);
    var n := Collapse(postcode);
    assert t[0] == n[0] && t[|t| - 1] == n[|n| - 1];
    assert forall i :: 0 <= i < |t| ==> UpperChar(t[i]) == t[i];
  }

  /** Collapsing a trimmed upper-case string only deletes its whitespace. */
  lemma CollapseOfTrimmedUpper(t: string)
    requires t != [] && !IsSpace(t[0]) && !IsSpace(t[|t| - 1]) && ToUpper(t) == t
    ensures Collapse(t) == RemoveWhitespace(t)
  {
    StripCharsNoop(t, Whitespace);
  }

  /** Normalising a normalised postcode changes nothing. */
  lemma NormalizeIdempotent(postcode: string)
    ensures NormalizePostcode(NormalizePostcode(postcode)) == NormalizePostcode(postcode)
  {
    var t := NormalizePostcode(postcode);
    if t != [] {
      NormalizedIsTrimmedUpper(postcode);
      CollapseOfTrimmedUpper(t);
      NormalizeWithoutSpaceIsCollapse(postcode);
      assert Collapse(t) == Collapse(postcode);
    }
  }

  // ---------------------------------------------------------------------------
  // The postcode cache
  // ---------------------------------------------------------------------------

  /** Coordinates as the geocoder returns them: `(latitude, longitude)`. */
  datatype Coords = Coords(lat: real, lon: real)

  /** Capacity of the cache (`maxsize=1000`). */
  const MaxEntries: nat := 1000

  /** The new cache after storing `value` under `key`: the key holds the value,
      no other entry changes, at most one other entry is evicted, and nothing is
      evicted while there is room or the key was already present. */
  ghost predicate Stored(before: map<string, Coords>, after: map<string, Coords>, key: string, value: Coords) {
    && key in after && after[key] == value
    && (forall k :: k in after && k != key ==> k in before && after[k] == before[k])
    && (forall k, k' :: k in before && k !in after && k' in before && k' !in after ==> k == k')
    && ((key in before || |before| < MaxEntries) ==> after == before[key := value])
  }

  /** The module-level `_postcode_cache`, as an object the caller owns. */
  class PostcodeCache {
    var entries: map<string, Coords>

    ghost predicate Valid()
      reads this
    {
      |entries| <= MaxEntries
    }

    constructor ()
      ensures Valid() && entries == map[]
    {
      entries := map[];
    }

    /** `_postcode_cache[key] = value`; a full cache evicts one entry first,
        which one is left open. */
    method Put(key: string, value: Coords)
      requires Valid()
      modifies this
      ensures Valid()
      ensures Stored(old(entries), entries, key, value)
    {
      if key !in entries && |entries| >= MaxEntries {
        var victim :| victim in entries;
        assert (entries - {victim}).Keys == entries.Keys - {victim};
        entries := entries - {victim};
      }
      entries := entries[key := value];
    }

    /** `clear_cache()` */
    method Clear()
      modifies this
      ensures Valid() && entries == map[]
    {
      entries := map[];
    }
  }

  // ---------------------------------------------------------------------------
  // The provider and the two-attempt loop of geocode_postcode
  // ---------------------------------------------------------------------------

  /** A `latitude` or `longitude` value of the provider's result object. */
  datatype Field =
    | Null              // missing or JSON null: `.get` gives None
    | Number(value: real)
    | NotNumeric        // present, but `float(...)` raises

  datatype ResultObject =
    | NotAnObject       // `result` is null or not a JSON object: `.get` raises
    | Object(latitude: Field, longitude: Field)

  /** The body of a 200 reply. */
  datatype Payload =
    | Unreadable        // `response.json()` raises or is not a JSON object
    | Json(status: Option<int>, result: Option<ResultObject>)

  /** What one `client.get(url)` produced. */
  datatype Outcome =
    | Reply(statusCode: int, payload: Payload)
    | NetworkError      // httpx.TimeoutException or httpx.ConnectError
    | OtherError        // any other exception

  /** The provider as a script: call `i` gets `script[i]`; a call past the end of
      the script raises an unexpected exception. */
  function OutcomeAt(script: seq<Outcome>, i: nat): Outcome {
    if i < |script| then script[i] else OtherError
  }

  /** `for attempt in range(2)` */
  const MaxAttempts: nat := 2

  /** What one attempt leads to. */
  datatype Step = Found(coords: Coords) | GiveUp | NextAttempt

  /** Reading a 200 body: a usable body gives coordinates, a body without
      `status == 200` and `result`, or with a null coordinate, falls through to
      the next attempt, and a body whose reading raises gives up. */
  function PayloadStep(payload: Payload): Step {
    match payload
    case Unreadable => GiveUp
    case Json(status, result) =>
      if status != Some(200) || result.None? then NextAttempt
      else match result.value
        case NotAnObject => GiveUp
        case Object(lat, lon) =>
          if lat.Null? || lon.Null? then NextAttempt
          else if lat.NotNumeric? || lon.NotNumeric? then GiveUp
          else Found(Coords(lat.value, lon.value))
  }

  /** The branch one attempt takes, by outcome and attempt index. */
  function AttemptStep(outcome: Outcome, attempt: nat): Step {
    match outcome
    case Reply(code, payload) =>
      if code == 200 then PayloadStep(payload)
      else if code == 404 then GiveUp
      else if code >= 500 && attempt == 0 then NextAttempt
      else GiveUp
    case NetworkError => if attempt == 0 then NextAttempt else GiveUp
    case OtherError => GiveUp
  }

  /** Result of a lookup and the number of provider calls it made. */
  datatype Lookup = Lookup(coords: Option<Coords>, calls: nat)

  function Shifted(l: Lookup, k: nat): Lookup {
    Lookup(l.coords, l.calls + k)
  }

  /** The attempts from `attempt` on. */
  function ProviderLoop(script: seq<Outcome>, attempt: nat): Lookup
    requires attempt <= MaxAttempts
    decreases MaxAttempts - attempt
  {
    if attempt == MaxAttempts then Lookup(None, 0)
    else match AttemptStep(OutcomeAt(script, attempt), attempt)
      case Found(c) => Lookup(Some(c), 1)
      case GiveUp => Lookup(None, 1)
      case NextAttempt => Shifted(ProviderLoop(script, attempt + 1), 1)
  }

  /** geocode_postcode against a cache snapshot: empty key, cache hit, or the provider loop. */
  function GeocodeSpec(cache: map<string, Coords>, postcode: string, script: seq<Outcome>): Lookup {
    var key := NormalizePostcode(postcode);
    if key == [] then Lookup(None, 0)
    else if key in cache then Lookup(Some(cache[key]), 0)
    else ProviderLoop(script, 0)
  }

  /** geocode_postcode: normalise, answer from the cache when possible, otherwise
      call the provider at most twice and store a success in the cache. */
  method GeocodePostcode(cache: PostcodeCache, postcode: string, script: seq<Outcome>)
    returns (coords: Option<Coords>, calls: nat)
    requires cache.Valid()
    modifies cache
    ensures cache.Valid()
    ensures Lookup(coords, calls) == GeocodeSpec(old(cache.entries), postcode, script)
    ensures if calls > 0 && coords.Some?
            then Stored(old(cache.entries), cache.entries, NormalizePostcode(postcode), coords.value)
            else cache.entries == old(cache.entries)
  {
    var key := NormalizePostcode(postcode);
    if key == [] {
      return None, 0;
    }
    if key in cache.entries {
      return Some(cache.entries[key]), 0;
    }
    calls := 0;
    var attempt := 0;
    while attempt < MaxAttempts
      invariant 0 <= attempt <= MaxAttempts
      invariant calls == attempt
      invariant cache.entries == old(cache.entries)
      invariant ProviderLoop(script, 0) == Shifted(ProviderLoop(script, attempt), attempt)
    {
      var outcome := OutcomeAt(script, attempt);
      calls := calls + 1;
      match outcome {
        case Reply(status, payload) =>
          if status == 200 {
            var step := PayloadStep(payload);
            if step.Found? {
              cache.Put(key, step.coords);
              return Some(step.coords), calls;
            } else if step.GiveUp? {
              return None, calls;
            }
            // an unusable body falls through to the next attempt
          } else if status == 404 {
            return None, calls;
          } else if status >= 500 && attempt == 0 {
            // sleeps 0.1 + 0.2 * (attempt + 1) seconds, then retries
          } else {
            return None, calls;
          }
        case NetworkError =>
          if attempt != 0 {
            return None, calls;
          }
        case OtherError =>
          return None, calls;
      }
      attempt := attempt + 1;
    }
    return None, calls;
  }

  // ---------------------------------------------------------------------------
  // Properties of the lookup
  // ---------------------------------------------------------------------------

  lemma {:induction false} ProviderLoopCalls(script: seq<Outcome>, attempt: nat)
    requires attempt < MaxAttempts
    ensures 1 <= ProviderLoop(script, attempt).calls <= MaxAttempts - attempt
    decreases MaxAttempts - attempt
  {
    if AttemptStep(OutcomeAt(script, attempt), attempt).NextAttempt? && attempt + 1 < MaxAttempts {
      ProviderLoopCalls(script, attempt + 1);
    }
  }

  /** At most two provider calls; none for an empty key or a cache hit, which
      answers with the cached value. */
  lemma GeocodeCallBound(cache: map<string, Coords>, postcode: string, script: seq<Outcome>)
    ensures GeocodeSpec(cache, postcode, script).calls <= MaxAttempts
    ensures GeocodeSpec(cache, postcode, script).calls == 0 <==>
      (NormalizePostcode(postcode) == [] || NormalizePostcode(postcode) in cache)
    ensures NormalizePostcode(postcode) == [] ==> GeocodeSpec(cache, postcode, script).coords == None
    ensures NormalizePostcode(postcode) in cache && NormalizePostcode(postcode) != [] ==>
      GeocodeSpec(cache, postcode, script).coords == Some(cache[NormalizePostcode(postcode)])
  {
    ProviderLoopCalls(script, 0);
  }

  /** A 404 is definitive: no retry, no coordinates. */
  lemma NotFoundIsFinal(script: seq<Outcome>, payload: Payload)
    requires OutcomeAt(script, 0) == Reply(404, payload)
    ensures ProviderLoop(script, 0) == Lookup(None, 1)
  {
  }

  /** An unexpected exception, or a status that is none of 200, 404 and 5xx,
      gives up at once. */
  lemma OtherFailuresAreFinal(script: seq<Outcome>)
    requires
      || OutcomeAt(script, 0).OtherError?
      || (OutcomeAt(script, 0).Reply? && OutcomeAt(script, 0).statusCode !in {200, 404}
          && OutcomeAt(script, 0).statusCode < 500)
    ensures ProviderLoop(script, 0) == Lookup(None, 1)
  {
  }

  /** A 5xx or a network error on the first attempt is retried exactly once;
      the second attempt alone decides, and the same failure again gives None. */
  lemma TransientFailureRetriedOnce(script: seq<Outcome>)
    requires
      || OutcomeAt(script, 0).NetworkError?
      || (OutcomeAt(script, 0).Reply? && OutcomeAt(script, 0).statusCode >= 500)
    ensures ProviderLoop(script, 0).calls == 2
    ensures ProviderLoop(script, 0).coords ==
      (if AttemptStep(OutcomeAt(script, 1), 1).Found?
       then Some(AttemptStep(OutcomeAt(script, 1), 1).coords) else None)
    ensures OutcomeAt(script, 1).NetworkError?
         || (OutcomeAt(script, 1).Reply? && OutcomeAt(script, 1).statusCode >= 500)
         ==> ProviderLoop(script, 0) == Lookup(None, 2)
  {
  }

  /** A 200 reply whose body is unusable falls through to the next attempt;
      two of them in a row give None after two calls. */
  lemma UnusableBodyFallsThrough(script: seq<Outcome>, p: Payload, q: Payload)
    requires OutcomeAt(script, 0) == Reply(200, p) && PayloadStep(p).NextAttempt?
    ensures ProviderLoop(script, 0) == Shifted(ProviderLoop(script, 1), 1)
    ensures OutcomeAt(script, 1) == Reply(200, q) && PayloadStep(q).NextAttempt? ==>
      ProviderLoop(script, 0) == Lookup(None, 2)
  {
  }

  /** Coordinates only ever come from the last call, a 200 reply with a usable body. */
  lemma {:induction false} SuccessComesFromUsableBody(script: seq<Outcome>, attempt: nat)
    requires attempt <= MaxAttempts
    requires ProviderLoop(script, attempt).coords.Some?
    ensures var l := ProviderLoop(script, attempt);
      && l.calls >= 1
      && OutcomeAt(script, attempt + l.calls - 1).Reply?
      && OutcomeAt(script, attempt + l.calls - 1).statusCode == 200
      && PayloadStep(OutcomeAt(script, attempt + l.calls - 1).payload) == Found(l.coords.value)
    decreases MaxAttempts - attempt
  {
    if AttemptStep(OutcomeAt(script, attempt), attempt).NextAttempt? {
      SuccessComesFromUsableBody(script, attempt + 1);
    }
  }

  /** Once a lookup has stored coordinates, the same postcode is answered from
      the cache with those coordinates and no provider call. */
  lemma RepeatLookupHitsCache(before: map<string, Coords>, after: map<string, Coords>,
                              postcode: string, script: seq<Outcome>, later: seq<Outcome>)
    requires GeocodeSpec(before, postcode, script).coords.Some?
    requires GeocodeSpec(before, postcode, script).calls > 0
    requires Stored(before, after, NormalizePostcode(postcode), GeocodeSpec(before, postcode, script).coords.value)
    ensures GeocodeSpec(after, postcode, later) == Lookup(GeocodeSpec(before, postcode, script).coords, 0)
  {
  }
}
