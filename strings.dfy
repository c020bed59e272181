/**
 * String helpers for the catalogs: JavaScript's case-sensitive
 * `String.prototype.includes` on `seq<char>`, and the decimal rendering
 * used in zone identifiers.
 */
module Strings {

  /** `p` is a prefix of `s`. */
  predicate StartsWith(s: string, p: string) {
    |p| <= |s| && s[..|p|] == p
  }

  /** A string whose first characters are those of `p` starts with `p`. */
  lemma StartsWithChars(s: string, p: string)
    requires |p| <= |s| && forall k | 0 <= k < |p| :: s[k] == p[k]
    ensures StartsWith(s, p)
  {
  }

  /** A string does not start with a pattern whose first character it lacks there. */
  lemma NotStartsWithFirstChar(s: string, p: string)
    requires |s| > 0 && |p| > 0 && s[0] != p[0]
    ensures !StartsWith(s, p)
  {
    if |p| <= |s| {
      assert s[..|p|][0] == s[0];
    }
  }

  /** `p` occurs in `s` starting at offset `i`. */
  predicate MatchesAt(s: string, p: string, i: nat) {
    i + |p| <= |s| && s[i..i + |p|] == p
  }

  /**
   * `s.includes(p)`: `p` occurs somewhere in `s`. Case-sensitive, and the
   * empty pattern is contained in every string, as in JavaScript.
   */
  predicate Contains(s: string, p: string) {
    exists i: nat | i <= |s| :: MatchesAt(s, p, i)
  }

  /**
   * `Contains` is the left-to-right scan: `p` is a prefix of `s`, or it
   * occurs in what follows the first character.
   */
  lemma {:induction false} ContainsScan(s: string, p: string)
    ensures Contains(s, p) <==> StartsWith(s, p) || (|s| > 0 && Contains(s[1..], p))
  {
    if StartsWith(s, p) {
      assert MatchesAt(s, p, 0);
    }
    if |s| > 0 {
      forall i: nat | MatchesAt(s[1..], p, i)
        ensures MatchesAt(s, p, i + 1)
      {
        assert s[1..][i..i + |p|] == s[i + 1..i + 1 + |p|];
      }
    }
    forall i: nat | MatchesAt(s, p, i)
      ensures StartsWith(s, p) || (|s| > 0 && MatchesAt(s[1..], p, i - 1))
    {
      if i == 0 {
        assert s[0..|p|] == s[..|p|];
      } else {
        assert s[1..][i - 1..i - 1 + |p|] == s[i..i + |p|];
      }
    }
  }

  /** A pattern holding a character that `s` lacks does not occur in `s`. */
  lemma MissingCharNotContained(s: string, p: string, c: char)
    requires c in p && c !in s
    ensures !Contains(s, p)
  {
    forall i: nat | i + |p| <= |s|
      ensures !MatchesAt(s, p, i)
    {
      assert c !in s[i..i + |p|];
    }
  }

  /** Occurrence is transitive: a pattern of a pattern of `s` occurs in `s`. */
  lemma ContainsTransitive(s: string, p: string, q: string)
    requires Contains(s, p) && Contains(p, q)
    ensures Contains(s, q)
  {
    var i: nat :| i <= |s| && MatchesAt(s, p, i);
    var j: nat :| j <= |p| && MatchesAt(p, q, j);
    forall k | 0 <= k < |q|
      ensures s[i + j + k] == q[k]
    {
      assert q[k] == p[j + k] == s[i..i + |p|][j + k];
    }
    assert s[i + j..i + j + |q|] == q;
    assert MatchesAt(s, q, i + j);
  }

  /** The character of a decimal digit. */
  function DigitChar(d: nat): (c: char)
    requires d < 10
    ensures '0' <= c <= '9' && c as int - '0' as int == d
  {
    ('0' as int + d) as char
  }

  /** JavaScript's rendering of a non-negative integer in base ten. */
  function DecimalString(n: nat): (r: string)
    ensures |r| > 0
    ensures forall k | 0 <= k < |r| :: '0' <= r[k] <= '9'
    decreases n
  {
    if n < 10 then [DigitChar(n)] else DecimalString(n / 10) + [DigitChar(n % 10)]
  }

  /** The number a string of decimal digits denotes. */
  function DecimalValue(s: string): nat
    requires forall k | 0 <= k < |s| :: '0' <= s[k] <= '9'
  {
    if s == [] then 0 else 10 * DecimalValue(s[..|s| - 1]) + (s[|s| - 1] as int - '0' as int)
  }

  /** Reading back a rendered number gives the number. */
  lemma {:induction false} DecimalRoundTrip(n: nat)
    ensures DecimalValue(DecimalString(n)) == n
    decreases n
  {
    if n >= 10 {
      DecimalRoundTrip(n / 10);
      var r := DecimalString(n);
      assert r[..|r| - 1] == DecimalString(n / 10);
    }
  }
}
