/** The two string normalisations the source applies before comparing names:
    Python's `str.strip()` with no argument and `str.upper()`. */
module Text {

  /** The characters for which Python's `str.isspace()` holds: the ASCII
      controls TAB..CR and FS..US, SPACE, NEL, NO-BREAK SPACE and the Unicode
      space separators and line/paragraph separators. */
  predicate IsSpace(c: char) {
    var n := c as int;
    || n == 0x20
    || 0x09 <= n <= 0x0D
    || 0x1C <= n <= 0x1F
    || n == 0x85
    || n == 0xA0
    || n == 0x1680
    || 0x2000 <= n <= 0x200A
    || n == 0x2028
    || n == 0x2029
    || n == 0x202F
    || n == 0x205F
    || n == 0x3000
  }

  /** `s` with its leading white space removed (`str.lstrip()`). */
  function TrimLeft(s: string): (r: string)
    ensures |r| <= |s| && r == s[|s| - |r|..]
    ensures r == [] || !IsSpace(r[0])
    ensures forall k :: 0 <= k < |s| - |r| ==> IsSpace(s[k])
  {
    if s != [] && IsSpace(s[0]) then TrimLeft(s[1..]) else s
  }

  /** `s` with its trailing white space removed (`str.rstrip()`). */
  function TrimRight(s: string): (r: string)
    ensures |r| <= |s| && r == s[..|r|]
    ensures r == [] || !IsSpace(r[|r| - 1])
    ensures forall k :: |r| <= k < |s| ==> IsSpace(s[k])
  {
    if s != [] && IsSpace(s[|s| - 1]) then TrimRight(s[..|s| - 1]) else s
  }

  /** A string that neither starts nor ends with white space. */
  predicate IsStripped(s: string) {
    s == [] || (!IsSpace(s[0]) && !IsSpace(s[|s| - 1]))
  }

  /** `str.strip()`: the longest infix of `s` that neither starts nor ends
      with white space, obtained by dropping white space at both ends only. */
  function Strip(s: string): (r: string)
    ensures IsStripped(r)
    ensures exists i {:trigger s[i..i + |r|]} :: 0 <= i <= |s| - |r| && r == s[i..i + |r|]
                        && (forall k :: 0 <= k < i ==> IsSpace(s[k]))
                        && (forall k :: i + |r| <= k < |s| ==> IsSpace(s[k]))
  {
    var left := TrimLeft(s);
    var r := TrimRight(left);
    var i := |s| - |left|;
    assert r == s[i..i + |r|];
    r
  }

  /** A string that is already stripped is its own strip. */
  lemma StripFixesStripped(s: string)
    requires IsStripped(s)
    ensures Strip(s) == s
  {
  }

  lemma StripIdempotent(s: string)
    ensures Strip(Strip(s)) == Strip(s)
  {
  }

  /** White space in front of a string that does not start with white space
      is exactly what `TrimLeft` removes. */
  lemma {:induction false} TrimLeftPadding(pad: string, u: string)
    requires forall k :: 0 <= k < |pad| ==> IsSpace(pad[k])
    requires u == [] || !IsSpace(u[0])
    ensures TrimLeft(pad + u) == u
  {
    if pad != [] {
      assert (pad + u)[1..] == pad[1..] + u;
      TrimLeftPadding(pad[1..], u);
    }
  }

  lemma {:induction false} TrimRightPadding(u: string, pad: string)
    requires forall k :: 0 <= k < |pad| ==> IsSpace(pad[k])
    requires u == [] || !IsSpace(u[|u| - 1])
    ensures TrimRight(u + pad) == u
  {
    if pad != [] {
      assert (u + pad)[..|u + pad| - 1] == u + pad[..|pad| - 1];
      TrimRightPadding(u, pad[..|pad| - 1]);
    }
  }

  /** Stripping a non-empty stripped string padded with white space on both
      sides gives the string back. */
  lemma StripPadding(before: string, t: string, after: string)
    requires forall k :: 0 <= k < |before| ==> IsSpace(before[k])
    requires forall k :: 0 <= k < |after| ==> IsSpace(after[k])
    requires t != [] && IsStripped(t)
    ensures Strip(before + t + after) == t
  {
    assert before + t + after == before + (t + after);
    TrimLeftPadding(before, t + after);
    TrimRightPadding(t, after);
  }

  /** The small letters `str.upper()` changes here: a..z and the Latin-1
      small letters U+00E0..U+00FE except the division sign U+00F7. */
  predicate IsSmall(c: char) {
    'a' <= c <= 'z' || (0xE0 <= c as int <= 0xFE && c as int != 0xF7)
  }

  /** Upper-casing of one character, as `str.upper()` does it for ASCII and
      Latin-1 letters: a small letter moves 0x20 code points down, to its
      capital; every other character is kept. */
  function UpperChar(c: char): char {
    if IsSmall(c) then (c as int - 0x20) as char else c
  }

  /** `str.upper()`: each character upper-cased in place, so the length and
      the positions of white space are kept, each small letter becomes the
      capital 0x20 code points below it, every other character is kept, and
      no small letter is left. */
  function Upper(s: string): (r: string)
    ensures |r| == |s|
    ensures forall i :: 0 <= i < |s| && IsSmall(s[i]) ==> r[i] as int == s[i] as int - 0x20
    ensures forall i :: 0 <= i < |s| && !IsSmall(s[i]) ==> r[i] == s[i]
    ensures forall i :: 0 <= i < |s| ==> (IsSpace(r[i]) <==> IsSpace(s[i]))
    ensures forall i :: 0 <= i < |s| ==> !IsSmall(r[i])
  {
    seq(|s|, i requires 0 <= i < |s| => UpperChar(s[i]))
  }

  /** A string without small letters is its own upper-case form. */
  lemma UpperFixesCapitals(s: string)
    requires forall i :: 0 <= i < |s| ==> !IsSmall(s[i])
    ensures Upper(s) == s
  {
  }

  lemma UpperIdempotent(s: string)
    ensures Upper(Upper(s)) == Upper(s)
  {
  }

  lemma UpperKeepsStripped(s: string)
    requires IsStripped(s)
    ensures IsStripped(Upper(s))
  {
  }

  /** The key normalisation `s.strip().upper()`: the result has no white
      space at either end and no small letter, and position by position it
      is `Strip(s)` with each small letter replaced by its capital. */
  function Normalize(s: string): (r: string)
    ensures IsStripped(r)
    ensures |r| == |Strip(s)|
    ensures forall i :: 0 <= i < |r| && IsSmall(Strip(s)[i]) ==> r[i] as int == Strip(s)[i] as int - 0x20
    ensures forall i :: 0 <= i < |r| && !IsSmall(Strip(s)[i]) ==> r[i] == Strip(s)[i]
    ensures forall i :: 0 <= i < |r| ==> !IsSmall(r[i])
  {
    UpperKeepsStripped(Strip(s));
    Upper(Strip(s))
  }

  /** Normalising twice is normalising once, so a key that is already
      normalised is found under itself. */
  lemma NormalizeIdempotent(s: string)
    ensures Normalize(Normalize(s)) == Normalize(s)
  {
    var t := Strip(s);
    UpperKeepsStripped(t);
    StripFixesStripped(Upper(t));
    UpperIdempotent(t);
  }

  /** A stripped string without small letters is its own normal form. */
  lemma NormalFormFixed(s: string)
    requires IsStripped(s)
    requires forall i :: 0 <= i < |s| ==> !IsSmall(s[i])
    ensures Normalize(s) == s
  {
    StripFixesStripped(s);
    UpperFixesCapitals(s);
  }

  /** Two strings that agree position by position once upper-cased. */
  predicate SameIgnoringCase(a: string, b: string) {
    |a| == |b| && forall i :: 0 <= i < |a| ==> UpperChar(a[i]) == UpperChar(b[i])
  }

  /** Two strings normalise to the same key exactly when their stripped forms
      agree up to letter case. */
  lemma NormalizeEqualIff(a: string, b: string)
    ensures Normalize(a) == Normalize(b) <==> SameIgnoringCase(Strip(a), Strip(b))
  {
    var ua, ub := Upper(Strip(a)), Upper(Strip(b));
    if Normalize(a) == Normalize(b) {
      forall i | 0 <= i < |Strip(a)|
        ensures UpperChar(Strip(a)[i]) == UpperChar(Strip(b)[i])
      {
        assert ua[i] == ub[i];
      }
    }
    if SameIgnoringCase(Strip(a), Strip(b)) {
      assert forall i :: 0 <= i < |ua| ==> ua[i] == ub[i];
    }
  }
}
