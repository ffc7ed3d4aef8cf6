/**
 * Ticker normalisation as the `/analyze` endpoint performs it: Python's
 * `str.upper()` followed by `str.strip()`, restricted to ASCII behaviour
 * (lower-case `a`..`z` are the only letters mapped; the whitespace set is
 * the ASCII part of Python's `str.isspace`).
 */
module Ticker {

  predicate IsAsciiLower(c: char) {
    'a' <= c <= 'z'
  }

  /**
   * ASCII characters for which Python's `str.isspace` holds: tab, line feed,
   * vertical tab, form feed, carriage return, the four information
   * separators 0x1C..0x1F, and space.
   */
  predicate IsSpace(c: char) {
    c == ' ' || (9 <= c as int <= 13) || (28 <= c as int <= 31)
  }

  function UpperChar(c: char): (u: char)
    ensures !IsAsciiLower(u)
    ensures IsSpace(u) <==> IsSpace(c)
    ensures !IsAsciiLower(c) ==> u == c
    ensures IsAsciiLower(c) ==> 'A' <= u <= 'Z' && u as int == c as int - 32
  {
    if IsAsciiLower(c) then (c as int - 32) as char else c
  }

  /** Every character of `s` in the index range `lo..hi` is whitespace. */
  ghost predicate SpaceBetween(s: string, lo: int, hi: int)
    requires 0 <= lo <= hi <= |s|
  {
    forall k :: lo <= k < hi ==> IsSpace(s[k])
  }

  ghost predicate AllSpace(s: string) {
    SpaceBetween(s, 0, |s|)
  }

  ghost predicate NoLower(s: string) {
    forall k :: 0 <= k < |s| ==> !IsAsciiLower(s[k])
  }

  /** Neither the first nor the last character is whitespace. */
  predicate NoEdgeSpace(s: string) {
    s == [] || (!IsSpace(s[0]) && !IsSpace(s[|s| - 1]))
  }

  /**
   * `s[i..j]` is what is left of `s` once all leading and all trailing
   * whitespace are removed: everything outside it is whitespace and its own
   * ends are not.
   */
  ghost predicate StripBounds(s: string, i: int, j: int) {
    && 0 <= i <= j <= |s|
    && SpaceBetween(s, 0, i)
    && SpaceBetween(s, j, |s|)
    && (i < j ==> !IsSpace(s[i]) && !IsSpace(s[j - 1]))
  }

  /** What `strip` is meant to produce, independently of how it is computed. */
  ghost predicate IsStripOf(t: string, s: string) {
    exists i, j :: StripBounds(s, i, j) && t == s[i..j]
  }

  /** `str.upper()`: every character upper-cased in place. */
  function Upper(s: string): (r: string)
    ensures |r| == |s|
    ensures forall k :: 0 <= k < |s| ==> r[k] == UpperChar(s[k])
  {
    if s == [] then [] else [UpperChar(s[0])] + Upper(s[1..])
  }

  /** `str.lstrip()`: drops the whitespace prefix and keeps the rest. */
  function StripLeft(s: string): (r: string)
    ensures |r| <= |s| && r == s[|s| - |r|..]
    ensures SpaceBetween(s, 0, |s| - |r|)
    ensures r != [] ==> !IsSpace(r[0])
  {
    if s != [] && IsSpace(s[0]) then StripLeft(s[1..]) else s
  }

  /** `str.rstrip()`: drops the whitespace suffix and keeps the rest. */
  function StripRight(s: string): (r: string)
    ensures |r| <= |s| && r == s[..|r|]
    ensures SpaceBetween(s, |r|, |s|)
    ensures r != [] ==> !IsSpace(r[|r| - 1])
  {
    if s != [] && IsSpace(s[|s| - 1]) then StripRight(s[..|s| - 1]) else s
  }

  /** `str.strip()`: the whitespace-free core of `s`. */
  function Strip(s: string): (r: string)
    ensures IsStripOf(r, s)
  {
    var l := StripLeft(s);
    var i := |s| - |l|;
    var r := StripRight(l);
    SpaceBetweenShift(s, i, |r|, |l|);
    assert r == s[i..i + |r|];
    assert StripBounds(s, i, i + |r|);
    r
  }

  /** `request.ticker.upper().strip()`. */
  function Normalise(raw: string): (r: string)
    ensures IsStripOf(r, Upper(raw))
    ensures NoEdgeSpace(r)
    ensures NoLower(r)
    ensures |r| <= |raw|
  {
    var u := Upper(raw);
    var r := Strip(u);
    assert NoLower(r) by {
      assert NoLower(u);
      var i, j :| StripBounds(u, i, j) && r == u[i..j];
      NoLowerSlice(u, i, j);
    }
    r
  }

  // ---------------------------------------------------------------------
  // Lemmas

  /** Whitespace in a suffix of `s` is whitespace of `s`, at the shifted indices. */
  lemma SpaceBetweenShift(s: string, i: int, lo: int, hi: int)
    requires 0 <= i <= |s| && 0 <= lo <= hi <= |s| - i
    requires SpaceBetween(s[i..], lo, hi)
    ensures SpaceBetween(s, i + lo, i + hi)
  {
    forall k | i + lo <= k < i + hi
      ensures IsSpace(s[k])
    {
      assert s[k] == s[i..][k - i];
    }
  }

  /** A slice of a string without lower-case letters has none either. */
  lemma NoLowerSlice(s: string, i: int, j: int)
    requires NoLower(s) && 0 <= i <= j <= |s|
    ensures NoLower(s[i..j])
  {
    assert forall k :: 0 <= k < j - i ==> s[i..j][k] == s[i + k];
  }

  /** `strip` leaves nothing exactly when the string is all whitespace. */
  lemma StripBoundsEmpty(s: string, i: int, j: int)
    requires StripBounds(s, i, j)
    ensures i == j <==> AllSpace(s)
  {
    if i == j {
      forall k | 0 <= k < |s|
        ensures IsSpace(s[k])
      {
        if k < i {
          assert SpaceBetween(s, 0, i);
        } else {
          assert SpaceBetween(s, j, |s|);
        }
      }
    }
  }

  /** Two readings of `strip` on the same string cut it at the same places. */
  lemma StripBoundsUnique(s: string, i: int, j: int, i': int, j': int)
    requires StripBounds(s, i, j) && StripBounds(s, i', j')
    ensures s[i..j] == s[i'..j']
  {
    StripBoundsEmpty(s, i, j);
    StripBoundsEmpty(s, i', j');
    if i < j {
      // each pair brackets the first and the last non-space of `s`
      assert i == i' && j == j';
    }
  }

  /** The specification of `strip` determines its result: `Strip` is the only string that meets it. */
  lemma StripUnique(t: string, s: string)
    ensures IsStripOf(t, s) <==> t == Strip(s)
  {
    if IsStripOf(t, s) {
      var i, j :| StripBounds(s, i, j) && t == s[i..j];
      var r := Strip(s);
      var i', j' :| StripBounds(s, i', j') && r == s[i'..j'];
      StripBoundsUnique(s, i, j, i', j');
    }
  }

  /** A string without edge whitespace is left unchanged by `strip`. */
  lemma StripKeepsTrimmed(s: string)
    requires NoEdgeSpace(s)
    ensures Strip(s) == s
  {
    assert StripBounds(s, 0, |s|) && s == s[0..|s|];
    StripUnique(s, s);
  }

  /** A string without lower-case letters is left unchanged by `upper`. */
  lemma UpperKeepsUpper(s: string)
    requires NoLower(s)
    ensures Upper(s) == s
  {
  }

  /** Normalising a normalised ticker changes nothing. */
  lemma NormaliseIdempotent(raw: string)
    ensures Normalise(Normalise(raw)) == Normalise(raw)
  {
    var n := Normalise(raw);
    UpperKeepsUpper(n);
    StripKeepsTrimmed(n);
  }

  /** A ticker normalises to nothing exactly when it consists of whitespace only. */
  lemma NormaliseEmptyIffBlank(raw: string)
    ensures Normalise(raw) == [] <==> AllSpace(raw)
  {
    var u := Upper(raw);
    assert AllSpace(u) <==> AllSpace(raw);
    var r := Strip(u);
    var i, j :| StripBounds(u, i, j) && r == u[i..j];
    StripBoundsEmpty(u, i, j);
  }
}
