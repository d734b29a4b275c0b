/**
 * The Python string built-ins the services rely on: `str.isspace` (also the
 * class `\s` of the `re` module for str patterns), `str.strip()` and
 * `str.split(sep)` with a one-character separator.
 */
module PyText {

  /** Python's `c.isspace()`: the ASCII whitespace TAB..CR and SPACE, the information
      separators U+001C..U+001F, NEL, NO-BREAK SPACE and the Unicode space separators. */
  predicate IsSpace(c: char) {
    || c == ' '
    || ('\t' <= c <= '\r')
    || ('\U{1C}' <= c <= '\U{1F}')
    || c == '\U{85}' || c == '\U{A0}' || c == '\U{1680}'
    || ('\U{2000}' <= c <= '\U{200A}')
    || c == '\U{2028}' || c == '\U{2029}' || c == '\U{202F}' || c == '\U{205F}' || c == '\U{3000}'
  }

  predicate AllSpace(s: string) {
    forall k :: 0 <= k < |s| ==> IsSpace(s[k])
  }

  /** Neither end of `s` is whitespace (what `strip()` leaves). */
  predicate IsStripped(s: string) {
    s == [] || (!IsSpace(s[0]) && !IsSpace(s[|s| - 1]))
  }

  /** The number of whitespace characters at the front of `s`. */
  function LeadingSpaces(s: string): (n: nat)
    ensures n <= |s|
    ensures forall m :: 0 <= m < n ==> IsSpace(s[m])
    ensures n == |s| || !IsSpace(s[n])
  {
    if |s| > 0 && IsSpace(s[0]) then 1 + LeadingSpaces(s[1..]) else 0
  }

  /** `LeadingSpaces` of a suffix, read as indices of the whole string. */
  lemma LeadingSpacesFrom(s: string, j: nat)
    requires j <= |s|
    ensures var n := j + LeadingSpaces(s[j..]);
      n <= |s| && (forall m :: j <= m < n ==> IsSpace(s[m])) && (n == |s| || !IsSpace(s[n]))
  {
    var n := j + LeadingSpaces(s[j..]);
    forall m | j <= m < n ensures IsSpace(s[m]) { assert s[j..][m - j] == s[m]; }
    if n < |s| { assert s[j..][n - j] == s[n]; }
  }

  /** Python's `s.lstrip()`: the suffix left after the leading whitespace. */
  function TrimLeft(s: string): (r: string)
    ensures |r| <= |s| && r == s[|s| - |r|..]
    ensures AllSpace(s[..|s| - |r|])
    ensures r == [] || !IsSpace(r[0])
  {
    var n := LeadingSpaces(s);
    assert forall m :: 0 <= m < n ==> s[..n][m] == s[m];
    s[n..]
  }

  /** Python's `s.rstrip()`: the prefix left before the trailing whitespace. */
  function TrimRight(s: string): (r: string)
    ensures |r| <= |s| && r == s[..|r|]
    ensures AllSpace(s[|r|..])
    ensures r == [] || !IsSpace(r[|r| - 1])
  {
    if |s| > 0 && IsSpace(s[|s| - 1]) then
      var r := TrimRight(s[..|s| - 1]);
      assert s[|r|..] == s[..|s| - 1][|r|..] + [s[|s| - 1]];
      r
    else s
  }

  /** Python's `s.strip()`: the infix of `s` between its leading and trailing
      whitespace; empty exactly when `s` is all whitespace. */
  function Strip(s: string): (r: string)
    ensures IsStripped(r)
    ensures r == [] <==> AllSpace(s)
    ensures IsStripped(s) ==> r == s
  {
    var t := TrimLeft(s);
    var r := TrimRight(t);
    var i := |s| - |t|;
    assert r == s[i..i + |r|] by { assert t == s[i..]; }
    assert AllSpace(s[i + |r|..]) by { assert s[i + |r|..] == t[|r|..]; }
    assert r == [] ==> t == [] by {
      assert r == [] ==> t[|r|..] == t;
    }
    assert t == [] ==> s == s[..i];
    assert IsStripped(s) ==> t == s;
    assert 0 <= i <= |s| - |r| && r == s[i..i + |r|] && AllSpace(s[..i]) && AllSpace(s[i + |r|..]);
    r
  }

  /** `strip()` removes exactly the surrounding whitespace: a text made of
      whitespace, a stripped non-empty core and whitespace strips to that
      core. (Every text is either all whitespace, which strips to "", or
      splits so.) */
  lemma StripKeepsCore(lead: string, core: string, trail: string)
    requires AllSpace(lead) && AllSpace(trail) && core != [] && IsStripped(core)
    ensures Strip(lead + core + trail) == core
  {
    var s := lead + core + trail;
    LeadingSpacesOf(lead, core + trail);
    assert s == lead + (core + trail);
    assert TrimLeft(s) == core + trail;
    TrimRightOf(core, trail);
  }

  /** Whitespace in front of a text that starts with a non-space character. */
  lemma LeadingSpacesOf(lead: string, rest: string)
    requires AllSpace(lead) && rest != [] && !IsSpace(rest[0])
    ensures LeadingSpaces(lead + rest) == |lead|
  {
    var s := lead + rest;
    assert forall m :: 0 <= m < |lead| ==> IsSpace(s[m]);
    assert !IsSpace(s[|lead|]);
  }

  /** Whitespace behind a text that ends with a non-space character. */
  lemma TrimRightOf(core: string, trail: string)
    requires AllSpace(trail) && core != [] && !IsSpace(core[|core| - 1])
    ensures TrimRight(core + trail) == core
  {
    var s := core + trail;
    var r := TrimRight(s);
    forall k | |r| <= k < |s| ensures IsSpace(s[k]) { assert s[|r|..][k - |r|] == s[k]; }
    forall k | |core| <= k < |s| ensures IsSpace(s[k]) { assert s[k] == trail[k - |core|]; }
    assert !IsSpace(s[|core| - 1]);
    assert |r| == |core|;
    assert r == s[..|core|] == core;
  }

  /** Python's `not s or not s.strip()`: empty or whitespace only, which by
      the contract of `Strip` is the same as `Strip(s) == []`. */
  predicate IsBlank(s: string) {
    AllSpace(s)
  }

  /** Python's `s.split(sep)`: the pieces of `s` between occurrences of `sep`,
      in order; there is always at least one piece. */
  function Split(s: string, sep: char): (parts: seq<string>)
    ensures |parts| >= 1
    ensures forall k :: 0 <= k < |parts| ==> sep !in parts[k]
    decreases |s|
  {
    if s == [] then [[]]
    else
      var rest := Split(s[1..], sep);
      if s[0] == sep then [[]] + rest
      else [[s[0]] + rest[0]] + rest[1..]
  }

  /** Python's `sep.join(parts)`: the inverse of `Split`. */
  function Join(parts: seq<string>, sep: char): string {
    if parts == [] then []
    else if |parts| == 1 then parts[0]
    else parts[0] + [sep] + Join(parts[1..], sep)
  }

  /** Joining the pieces back with the separator gives the original text. */
  lemma {:induction false} JoinSplit(s: string, sep: char)
    ensures Join(Split(s, sep), sep) == s
    decreases |s|
  {
    if s != [] {
      var rest := Split(s[1..], sep);
      JoinSplit(s[1..], sep);
      if s[0] == sep {
        assert Split(s, sep) == [[]] + rest;
        assert ([[]] + rest)[1..] == rest;
      } else {
        var parts := [[s[0]] + rest[0]] + rest[1..];
        assert Split(s, sep) == parts;
        if |rest| == 1 {
          assert Join(rest, sep) == rest[0];
        } else {
          assert parts[1..] == rest[1..];
          assert Join(rest, sep) == rest[0] + [sep] + Join(rest[1..], sep);
        }
      }
    }
  }

  /** A piece free of the separator followed by the rest of the text: the piece
      is glued to the front of the rest's first piece. */
  lemma {:induction false} SplitPrefix(x: string, tail: string, sep: char)
    requires sep !in x
    ensures Split(x + tail, sep) == [x + Split(tail, sep)[0]] + Split(tail, sep)[1..]
    decreases |x|
  {
    if x != [] {
      assert (x + tail)[1..] == x[1..] + tail;
      assert (x + tail)[0] == x[0];
      SplitPrefix(x[1..], tail, sep);
      assert [x[0]] + (x[1..] + Split(tail, sep)[0]) == x + Split(tail, sep)[0];
    } else {
      assert x + tail == tail;
      assert x + Split(tail, sep)[0] == Split(tail, sep)[0];
      assert |Split(tail, sep)| >= 1;
      assert Split(tail, sep) == [Split(tail, sep)[0]] + Split(tail, sep)[1..];
    }
  }

  /** Splitting joined pieces that do not contain the separator gives the pieces back. */
  lemma {:induction false} SplitJoin(parts: seq<string>, sep: char)
    requires |parts| >= 1
    requires forall k :: 0 <= k < |parts| ==> sep !in parts[k]
    ensures Split(Join(parts, sep), sep) == parts
    decreases |parts|
  {
    if |parts| == 1 {
      SplitPrefix(parts[0], [], sep);
      assert parts[0] + [] == parts[0];
    } else {
      var tail := Join(parts[1..], sep);
      SplitJoin(parts[1..], sep);
      assert Join(parts, sep) == parts[0] + ([sep] + tail);
      SplitPrefix(parts[0], [sep] + tail, sep);
      assert ([sep] + tail)[1..] == tail;
      assert Split([sep] + tail, sep) == [[]] + parts[1..];
      assert parts[0] + [] == parts[0];
    }
  }

  /** The joined text starts with the first piece's first character. */
  lemma {:induction false} JoinFirst(parts: seq<string>, sep: char)
    requires |parts| >= 1 && parts[0] != []
    ensures Join(parts, sep) != [] && Join(parts, sep)[0] == parts[0][0]
  {
  }

  /** The joined text ends with the last piece's last character. */
  lemma {:induction false} JoinLast(parts: seq<string>, sep: char)
    requires |parts| >= 1 && parts[|parts| - 1] != []
    ensures var j := Join(parts, sep); j != [] && j[|j| - 1] == parts[|parts| - 1][|parts[|parts| - 1]| - 1]
    decreases |parts|
  {
    if |parts| > 1 {
      JoinLast(parts[1..], sep);
    }
  }
}
