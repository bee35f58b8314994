/** Mapping one address provider item into an address suggestion
    (`AddressService._map_item`, app/services/address.py). */
module Address {
  import opened Wrappers
  import opened Text

  // ---------------------------------------------------------------------------
  // re.match(r"^(\d{5})\s+(.+)$", desc)
  // ---------------------------------------------------------------------------

  /** The pattern matches `desc` with group 2 starting at `k`: five digits,
      whitespace up to `k`, then at least one character and no line feed up
      to the end (`.` does not match "\n"). */
  predicate RegexMatchAt(desc: string, k: int) {
    && 6 <= k < |desc|
    && AllDigits(desc[..5])
    && (forall i :: 5 <= i < k ==> IsSpace(desc[i]))
    && (forall i :: k <= i < |desc| ==> desc[i] != '\n')
  }

  /** The largest split point not above `k` at which the pattern matches. */
  function LastMatchAt(desc: string, k: int): (r: Option<nat>)
    ensures r.Some? ==> r.value <= k && RegexMatchAt(desc, r.value)
    ensures r.Some? ==> forall j :: r.value < j <= k ==> !RegexMatchAt(desc, j)
    ensures r.None? ==> forall j :: j <= k ==> !RegexMatchAt(desc, j)
    decreases k
  {
    if k < 6 then None
    else if RegexMatchAt(desc, k) then Some(k)
    else LastMatchAt(desc, k - 1)
  }

  /** Where group 2 starts, if the pattern matches: the greedy `\s+` is tried
      from its longest run downwards, so the largest matching split wins. */
  function RegexMatch(desc: string): (r: Option<nat>)
    ensures r.Some? ==> RegexMatchAt(desc, r.value)
    ensures r.Some? ==> forall j :: r.value < j ==> !RegexMatchAt(desc, j)
    ensures r.None? ==> forall j :: !RegexMatchAt(desc, j)
  {
    LastMatchAt(desc, |desc| - 1)
  }

  /** On a description with no whitespace at either end, a match splits it into
      the five digits, a whitespace run, and a city that starts and ends with
      a non-whitespace character, so stripping group 2 changes nothing. */
  lemma MatchedDescriptionSplits(desc: string)
    requires desc == [] || (!IsSpace(desc[0]) && !IsSpace(desc[|desc| - 1]))
    requires RegexMatch(desc).Some?
    ensures var k := RegexMatch(desc).value;
      && desc == desc[..5] + desc[5..k] + desc[k..]
      && !IsSpace(desc[k])
      && Strip(desc[k..]) == desc[k..]
  {
    var k := RegexMatch(desc).value;
    if IsSpace(desc[k]) {
      assert k + 1 < |desc|;
      assert RegexMatchAt(desc, k + 1);
      assert false;
    }
    var city := desc[k..];
    assert city[0] == desc[k] && city[|city| - 1] == desc[|desc| - 1];
    StripCharsNoop(city, Whitespace);
    assert desc == desc[..5] + desc[5..k] + desc[k..];
  }

  // ---------------------------------------------------------------------------
  // _map_item
  // ---------------------------------------------------------------------------

  /** The provider item fields the mapping reads; absent and null are both None. */
  datatype Item = Item(
    typ: Option<string>,
    text: Option<string>,
    description: Option<string>,
    id: Option<string>)

  /** `AddressSuggestion` */
  datatype AddressSuggestion = AddressSuggestion(
    id: string,
    labelText: string,  // `label`
    description: Option<string>,
    address: string,
    city: string,
    postalCode: string,
    countryCode: string,
    formatted: string)

  /** The schema's country code pattern `^[A-Z]{2}$`. */
  predicate IsCountryCode(s: string) {
    |s| == 2 && 'A' <= s[0] <= 'Z' && 'A' <= s[1] <= 'Z'
  }

  /** `(value or "")`: None and "" both give "". */
  function OrEmpty(s: Option<string>): string {
    if s.Some? then s.value else ""
  }

  const FormatStripChars: set<char> := {',', ' '}

  /** `f"{text}, {postal} {city}, DE".strip(", ")` */
  function Formatted(text: string, postal: string, city: string): string {
    StripChars(text + ", " + postal + " " + city + ", DE", FormatStripChars)
  }

  /** `_map_item`: None for anything but an "Address" item; otherwise the
      suggestion, which fails schema validation when the item has no Id. */
  function MapItem(it: Item): (r: Result<Option<AddressSuggestion>, string>)
    ensures it.typ != Some("Address") ==> r == Success(None)
    ensures it.typ == Some("Address") ==> (r.Failure? <==> it.id.None?)
    ensures r.Success? && r.value.Some? <==> it.typ == Some("Address") && it.id.Some?
    ensures r.Success? && r.value.Some? ==>
      var s := r.value.value;
      var text := Strip(OrEmpty(it.text));
      var desc := Strip(OrEmpty(it.description));
      && it.typ == Some("Address")
      && s.id == it.id.value
      && s.labelText == text && s.address == text
      && (s.description.None? <==> desc == [])
      && (s.description.Some? ==> s.description.value == desc)
      && IsCountryCode(s.countryCode) && s.countryCode == "DE"
      && (RegexMatch(desc).Some? ==>
            && s.postalCode == desc[..5] && AllDigits(s.postalCode)
            && s.city == desc[RegexMatch(desc).value..]
            && desc == s.postalCode + desc[5..RegexMatch(desc).value] + s.city)
      && (RegexMatch(desc).None? ==> s.postalCode == "" && s.city == desc)
      && s.formatted == Formatted(text, s.postalCode, s.city)
  {
    if it.typ != Some("Address") then Success(None)
    else
      var text := Strip(OrEmpty(it.text));
      var desc := Strip(OrEmpty(it.description));
      var m := RegexMatch(desc);
      var postal := if m.Some? then desc[..5] else "";
      var city := if m.Some? then MatchedDescriptionSplits(desc); Strip(desc[m.value..]) else desc;
      if it.id.None? then Failure("id: Input should be a valid string")
      else
        Success(Some(AddressSuggestion(
          it.id.value,
          text,
          if desc != [] then Some(desc) else None,
          text,
          city,
          postal,
          "DE",
          Formatted(text, postal, city))))
  }

  /** Stripping ", " only removes a prefix: the formatted string always ends in
      "DE", is a suffix of the unstripped one, and what was dropped is commas
      and spaces; with a text that does not start with either, nothing is dropped. */
  lemma FormattedShape(text: string, postal: string, city: string)
    ensures var full := text + ", " + postal + " " + city + ", DE";
      var f := Formatted(text, postal, city);
      && |f| >= 2 && f[|f| - 2..] == "DE"
      && |f| <= |full| && f == full[|full| - |f|..]
      && (forall i :: 0 <= i < |full| - |f| ==> full[i] in FormatStripChars)
      && (text != [] && text[0] !in FormatStripChars ==> f == full)
  {
    var full := text + ", " + postal + " " + city + ", DE";
    var f := Formatted(text, postal, city);
    var lead := LeadingIn(full, FormatStripChars);
    assert full[|full| - 1] == 'E' && full[|full| - 2] == 'D';
    assert lead + |f| == |full|;
    if text != [] && text[0] !in FormatStripChars {
      assert full[0] == text[0];
    }
  }

  /** With empty text and postal code, the label is the city followed by
      ", DE" with its leading commas and spaces stripped: the ", " and " "
      separators before the city disappear. An empty city leaves "DE". */
  lemma FormattedOfBlanks(text: string, postal: string, city: string)
    requires text == [] && postal == []
    ensures Formatted(text, postal, city) == StripChars(city + ", DE", FormatStripChars)
    ensures city == [] ==> Formatted(text, postal, city) == "DE"
  {
    var sep := text + ", " + postal + " ";
    var rest := city + ", DE";
    assert text + ", " + postal + " " + city + ", DE" == sep + rest;
    assert |sep| == 3 && sep[0] == ',' && sep[1] == ' ' && sep[2] == ' ';
    StripCharsDropsPrefix(sep, rest, FormatStripChars);
    if city == [] {
      FormattedOfEmptyParts(text, postal, city);
    }
  }

  /** All three parts empty: only the separators before "DE" are stripped. */
  lemma FormattedOfEmptyParts(text: string, postal: string, city: string)
    requires text == [] && postal == [] && city == []
    ensures Formatted(text, postal, city) == "DE"
  {
    var full := text + ", " + postal + " " + city + ", DE";
    assert full == ",  , DE";
    var sep := full[..5];
    var tail := full[5..];
    assert full == sep + tail;
    assert forall i :: 0 <= i < 5 ==> sep[i] in FormatStripChars;
    assert tail[0] !in FormatStripChars && LeadingIn(tail, FormatStripChars) == 0;
    LeadingInPrefix(sep, tail, FormatStripChars);
    StripCharsKeptEnd(full, FormatStripChars);
  }

  /** An address item whose text and description are absent or blank still
      formats as "DE". */
  lemma FormattedBlank(it: Item)
    requires it.typ == Some("Address") && it.id.Some?
    requires Strip(OrEmpty(it.text)) == [] && Strip(OrEmpty(it.description)) == []
    ensures MapItem(it).Success? && MapItem(it).value.Some?
    ensures MapItem(it).value.value.formatted == "DE"
  {
    var desc := Strip(OrEmpty(it.description));
    assert RegexMatch(desc).None?;
    var s := MapItem(it).value.value;
    FormattedOfBlanks(s.labelText, s.postalCode, s.city);
  }
}
