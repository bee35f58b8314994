/** The ASCII part of Python's string rules that the services rely on:
    `str.isspace()` and the regex class `\s`, `str.isdigit()` and `\d`,
    `str.upper()`, `str.strip(chars)` and deleting characters. */
module Text {

  /** Python's whitespace restricted to ASCII: tab, line feed, vertical tab,
      form feed, carriage return, the four separators 0x1C-0x1F, space. */
  const Whitespace: set<char> :=
    {'\t', '\n', '\U{0B}', '\U{0C}', '\r', '\U{1C}', '\U{1D}', '\U{1E}', '\U{1F}', ' '}

  predicate IsSpace(c: char) {
    c in Whitespace
  }

  predicate IsDigit(c: char) {
    '0' <= c <= '9'
  }

  predicate AllDigits(s: string) {
    forall i :: 0 <= i < |s| ==> IsDigit(s[i])
  }

  /** `str.isdigit()`: at least one character, and every character a digit. */
  predicate IsDigitString(s: string) {
    |s| > 0 && AllDigits(s)
  }

  /** The decimal value of a string of digits (`int(s)` / `float(s)`). */
  function DigitsValue(s: string): (v: nat)
    requires AllDigits(s)
    decreases |s|
  {
    if s == [] then 0
    else 10 * DigitsValue(s[..|s| - 1]) + (s[|s| - 1] as int - '0' as int)
  }

  function UpperChar(c: char): char {
    if 'a' <= c <= 'z' then (c as int - 32) as char else c
  }

  /** `str.upper()` on ASCII letters; every other character is kept. */
  function ToUpper(s: string): (r: string)
    ensures |r| == |s| && forall i :: 0 <= i < |s| ==> r[i] == UpperChar(s[i])
  {
    seq(|s|, i requires 0 <= i < |s| => UpperChar(s[i]))
  }

  function LeadingIn(s: string, cs: set<char>): (n: nat)
    ensures n <= |s|
    ensures forall i :: 0 <= i < n ==> s[i] in cs
    ensures n < |s| ==> s[n] !in cs
  {
    if |s| == 0 || s[0] !in cs then 0 else 1 + LeadingIn(s[1..], cs)
  }

  function TrailingIn(s: string, cs: set<char>): (n: nat)
    ensures n <= |s|
    ensures forall i :: |s| - n <= i < |s| ==> s[i] in cs
    ensures n < |s| ==> s[|s| - n - 1] !in cs
  {
    if |s| == 0 || s[|s| - 1] !in cs then 0 else 1 + TrailingIn(s[..|s| - 1], cs)
  }

  /** `s.strip(chars)`: drop every leading and trailing character of `cs`. */
  function StripChars(s: string, cs: set<char>): (r: string)
    ensures |r| <= |s|
    ensures r == [] || (r[0] !in cs && r[|r| - 1] !in cs)
    ensures LeadingIn(s, cs) + |r| <= |s|
    ensures r == s[LeadingIn(s, cs)..LeadingIn(s, cs) + |r|]
    ensures forall i :: 0 <= i < |s| && (i < LeadingIn(s, cs) || LeadingIn(s, cs) + |r| <= i) ==> s[i] in cs
  {
    var a := LeadingIn(s, cs);
    if a == |s| then [] else s[a..|s| - TrailingIn(s, cs)]
  }

  /** `s.strip()` */
  function Strip(s: string): string {
    StripChars(s, Whitespace)
  }

  /** A string with no stripped character at either end is its own strip. */
  lemma StripCharsNoop(s: string, cs: set<char>)
    requires s == [] || (s[0] !in cs && s[|s| - 1] !in cs)
    ensures StripChars(s, cs) == s
  {
  }

  /** A prefix made only of stripped characters is counted into the
      leading run. */
  lemma {:induction false} LeadingInPrefix(p: string, t: string, cs: set<char>)
    requires forall i :: 0 <= i < |p| ==> p[i] in cs
    ensures LeadingIn(p + t, cs) == |p| + LeadingIn(t, cs)
    decreases |p|
  {
    if p == [] {
      assert p + t == t;
    } else {
      assert (p + t)[0] == p[0];
      assert (p + t)[1..] == p[1..] + t;
      LeadingInPrefix(p[1..], t, cs);
    }
  }

  /** A string ending in a kept character loses only its leading run. */
  lemma StripCharsKeptEnd(s: string, cs: set<char>)
    requires |s| > 0 && s[|s| - 1] !in cs
    ensures LeadingIn(s, cs) < |s|
    ensures StripChars(s, cs) == s[LeadingIn(s, cs)..]
  {
    assert TrailingIn(s, cs) == 0;
  }

  /** Stripping a string that ends in a kept character ignores any prefix of
      stripped characters. */
  lemma StripCharsDropsPrefix(p: string, t: string, cs: set<char>)
    requires forall i :: 0 <= i < |p| ==> p[i] in cs
    requires |t| > 0 && t[|t| - 1] !in cs
    ensures StripChars(p + t, cs) == StripChars(t, cs)
  {
    var s := p + t;
    LeadingInPrefix(p, t, cs);
    assert s[|s| - 1] == t[|t| - 1];
    StripCharsKeptEnd(s, cs);
    StripCharsKeptEnd(t, cs);
    assert s[|p|..] == t;
    assert s[|p| + LeadingIn(t, cs)..] == t[LeadingIn(t, cs)..];
  }

  /** Deletes every whitespace character (`re.sub(r'\s+', '', s)`). */
  function RemoveWhitespace(s: string): (r: string)
    ensures |r| <= |s|
    ensures forall i :: 0 <= i < |r| ==> !IsSpace(r[i]) && r[i] in s
  {
    if s == [] then []
    else (if IsSpace(s[0]) then [] else [s[0]]) + RemoveWhitespace(s[1..])
  }

  /** Deletes every occurrence of one character (`s.replace(c, "")`). */
  function DeleteChar(s: string, c: char): (r: string)
    ensures |r| <= |s|
    ensures forall i :: 0 <= i < |r| ==> r[i] != c
    ensures forall i :: 0 <= i < |r| ==> r[i] in s
  {
    if s == [] then []
    else (if s[0] == c then [] else [s[0]]) + DeleteChar(s[1..], c)
  }

  lemma {:induction false} RemoveWhitespaceAppend(a: string, b: string)
    ensures RemoveWhitespace(a + b) == RemoveWhitespace(a) + RemoveWhitespace(b)
    decreases |a|
  {
    if a != [] {
      assert (a + b)[0] == a[0] && (a + b)[1..] == a[1..] + b;
      RemoveWhitespaceAppend(a[1..], b);
      var h := if IsSpace(a[0]) then [] else [a[0]];
      assert RemoveWhitespace(a + b) == h + (RemoveWhitespace(a[1..]) + RemoveWhitespace(b));
    } else {
      assert a + b == b;
    }
  }

  lemma {:induction false} RemoveWhitespaceKeeps(s: string)
    requires forall i :: 0 <= i < |s| ==> !IsSpace(s[i])
    ensures RemoveWhitespace(s) == s
    decreases |s|
  {
    if s != [] {
      RemoveWhitespaceKeeps(s[1..]);
    }
  }

  lemma {:induction false} RemoveWhitespaceDropsAll(s: string)
    requires forall i :: 0 <= i < |s| ==> IsSpace(s[i])
    ensures RemoveWhitespace(s) == []
    decreases |s|
  {
    if s != [] {
      RemoveWhitespaceDropsAll(s[1..]);
    }
  }

  lemma {:induction false} RemoveWhitespaceFindsNonSpace(s: string, k: nat)
    requires k < |s| && !IsSpace(s[k])
    ensures RemoveWhitespace(s) != []
    decreases k
  {
    if k > 0 && IsSpace(s[0]) {
      RemoveWhitespaceFindsNonSpace(s[1..], k - 1);
    }
  }

  lemma {:induction false} DeleteCharAppend(a: string, b: string, c: char)
    ensures DeleteChar(a + b, c) == DeleteChar(a, c) + DeleteChar(b, c)
    decreases |a|
  {
    if a != [] {
      assert (a + b)[0] == a[0] && (a + b)[1..] == a[1..] + b;
      DeleteCharAppend(a[1..], b, c);
      var h := if a[0] == c then [] else [a[0]];
      assert DeleteChar(a + b, c) == h + (DeleteChar(a[1..], c) + DeleteChar(b, c));
    } else {
      assert a + b == b;
    }
  }

  lemma {:induction false} DeleteCharKeeps(s: string, c: char)
    requires forall i :: 0 <= i < |s| ==> s[i] != c
    ensures DeleteChar(s, c) == s
    decreases |s|
  {
    if s != [] {
      DeleteCharKeeps(s[1..], c);
    }
  }
}
