/**
 * The string operations the weather code relies on: `toLowerCase`, `includes`
 * and `trim`, on Dafny strings (sequences of Unicode scalar values).
 * Lower-casing covers the capitals of ASCII, Latin-1, Greek and Cyrillic.
 */
module Text {

  /**
   * Lower-casing of one character for the capital letters of ASCII, Latin-1,
   * Greek and Cyrillic; every other character is kept. Σ always becomes σ:
   * the word-final ς that `toLowerCase` gives depends on the neighbouring
   * characters, which a one-character map cannot see.
   */
  function LowerChar(c: char): char {
    var n := c as int;
    if 'A' <= c <= 'Z' || (0xC0 <= n <= 0xDE && n != 0xD7) then (n + 32) as char
    else if 0x391 <= n <= 0x3A9 && n != 0x3A2 then (n + 32) as char
    else if 0x400 <= n <= 0x40F then (n + 80) as char
    else if 0x410 <= n <= 0x42F then (n + 32) as char
    else c
  }

  /** `s.toLowerCase()`, for the letters `LowerChar` covers. */
  function Lower(s: string): (r: string)
    ensures |r| == |s|
    ensures forall i | 0 <= i < |s| :: r[i] == LowerChar(s[i])
  {
    if s == [] then [] else [LowerChar(s[0])] + Lower(s[1..])
  }

  /** Lower-casing twice is lower-casing once. */
  lemma LowerIdempotent(s: string)
    ensures Lower(Lower(s)) == Lower(s)
  {
    assert forall i | 0 <= i < |s| :: LowerChar(LowerChar(s[i])) == LowerChar(s[i]);
  }

  /** `p` occurs in `s` starting at index `i`. */
  predicate OccursAt(s: string, p: string, i: int) {
    0 <= i && i + |p| <= |s| && s[i..i + |p|] == p
  }

  /** `s.includes(p)`: a scan that tries every start position from the left. */
  predicate Contains(s: string, p: string)
    decreases |s|
  {
    |p| <= |s| && (s[..|p|] == p || (0 < |s| && Contains(s[1..], p)))
  }

  /** The scan agrees with the definition of a substring: some start position holds `p`. */
  lemma {:induction false} ContainsIff(s: string, p: string)
    ensures Contains(s, p) <==> exists i :: OccursAt(s, p, i)
    decreases |s|
  {
    if |p| > |s| {
      assert forall i :: !OccursAt(s, p, i);
    } else if s[..|p|] == p {
      assert OccursAt(s, p, 0);
    } else {
      assert !OccursAt(s, p, 0);
      ContainsIff(s[1..], p);
      forall i | 0 <= i
        ensures OccursAt(s[1..], p, i) <==> OccursAt(s, p, i + 1)
      {
        if i + |p| <= |s[1..]| {
          assert s[1..][i..i + |p|] == s[i + 1..i + 1 + |p|];
        }
      }
      if exists i :: OccursAt(s, p, i) {
        var i :| OccursAt(s, p, i);
        assert i > 0 && OccursAt(s[1..], p, i - 1);
      }
    }
  }

  /** A string containing `p` contains its first character. */
  lemma ContainsFirstChar(s: string, p: string)
    requires |p| > 0
    ensures Contains(s, p) ==> p[0] in s
  {
    ContainsIff(s, p);
    if Contains(s, p) {
      var i :| OccursAt(s, p, i);
      assert s[i] == s[i..i + |p|][0];
    }
  }

  /** No start position holds `p`, so `s` does not contain it. */
  lemma NotContains(s: string, p: string)
    requires forall i :: !OccursAt(s, p, i)
    ensures !Contains(s, p)
  {
    ContainsIff(s, p);
  }

  /** The characters `String.prototype.trim` removes: ECMAScript WhiteSpace and LineTerminator. */
  predicate IsSpace(c: char) {
    var n := c as int;
    n == 0x09 || n == 0x0A || n == 0x0B || n == 0x0C || n == 0x0D || n == 0x20
    || n == 0xA0 || n == 0x1680 || (0x2000 <= n <= 0x200A) || n == 0x2028 || n == 0x2029
    || n == 0x202F || n == 0x205F || n == 0x3000 || n == 0xFEFF
  }

  /** Every character of `s` is white space (vacuously so for the empty string). */
  predicate AllSpace(s: string) {
    forall i | 0 <= i < |s| :: IsSpace(s[i])
  }

  /** The number of white-space characters `s` starts with. */
  function LeadingSpaces(s: string): (n: nat)
    ensures n <= |s|
    ensures forall i | 0 <= i < n :: IsSpace(s[i])
    ensures n < |s| ==> !IsSpace(s[n])
  {
    if |s| > 0 && IsSpace(s[0]) then 1 + LeadingSpaces(s[1..]) else 0
  }

  /** The number of white-space characters `s` ends with. */
  function TrailingSpaces(s: string): (n: nat)
    ensures n <= |s|
    ensures forall i | |s| - n <= i < |s| :: IsSpace(s[i])
    ensures n < |s| ==> !IsSpace(s[|s| - 1 - n])
  {
    if |s| > 0 && IsSpace(s[|s| - 1]) then 1 + TrailingSpaces(s[..|s| - 1]) else 0
  }

  /**
   * `s.trim()`: the piece of `s` left after removing white space at both ends;
   * empty exactly when `s` is all white space, otherwise bounded by non-space characters.
   */
  function Trim(s: string): (r: string)
    ensures exists k ::
      && OccursAt(s, r, k)
      && (forall i | 0 <= i < k :: IsSpace(s[i]))
      && (forall i | k + |r| <= i < |s| :: IsSpace(s[i]))
    ensures r == [] <==> AllSpace(s)
    ensures r == [] || (!IsSpace(r[0]) && !IsSpace(r[|r| - 1]))
  {
    var lo := LeadingSpaces(s);
    if lo == |s| then
      assert OccursAt(s, [], |s|);
      []
    else
      var hi := |s| - TrailingSpaces(s);
      assert lo < hi;
      assert OccursAt(s, s[lo..hi], lo);
      s[lo..hi]
  }

  /** Trimming an already trimmed string changes nothing. */
  lemma TrimIdempotent(s: string)
    ensures Trim(Trim(s)) == Trim(s)
  {
    var r := Trim(s);
    if r != [] {
      assert LeadingSpaces(r) == 0 && TrailingSpaces(r) == 0;
      assert r[0..|r|] == r;
    }
  }
}
