/**
 * The string operations the service relies on: `str.lower()` (ASCII letters only),
 * the substring test `needle in haystack`, `sep.join(parts)`, the slice `s[:n]`
 * and the decimal rendering of a count inside an f-string.
 */
module Strings {

  /** Lower-cases one ASCII upper-case letter; every other character is unchanged. */
  function LowerChar(c: char): char
  {
    if 'A' <= c <= 'Z' then (c as int - 'A' as int + 'a' as int) as char else c
  }

  /**
   * `s.lower()`, restricted to the ASCII letters: same length, no upper-case
   * letter left, and every character that was not an upper-case letter kept.
   */
  function Lower(s: string): (r: string)
    ensures |r| == |s|
    ensures forall i :: 0 <= i < |r| ==> !('A' <= r[i] <= 'Z')
    ensures forall i :: 0 <= i < |s| && !('A' <= s[i] <= 'Z') ==> r[i] == s[i]
  {
    seq(|s|, i requires 0 <= i < |s| => LowerChar(s[i]))
  }

  lemma LowerConcat(a: string, b: string)
    ensures Lower(a + b) == Lower(a) + Lower(b)
  {
    assert forall i :: 0 <= i < |a + b| ==> Lower(a + b)[i] == (Lower(a) + Lower(b))[i];
  }

  /** `needle` occurs in `haystack` starting at position `i`. */
  predicate OccursAt(haystack: string, needle: string, i: int)
  {
    0 <= i && i + |needle| <= |haystack| && haystack[i..i + |needle|] == needle
  }

  /**
   * Python's `needle in haystack` on strings: a prefix is contained, and a
   * contained needle is never longer than the haystack.
   */
  predicate Contains(haystack: string, needle: string)
    ensures needle <= haystack ==> Contains(haystack, needle)
    ensures Contains(haystack, needle) ==> |needle| <= |haystack|
    decreases |haystack|
  {
    needle <= haystack || (|haystack| > 0 && Contains(haystack[1..], needle))
  }

  /** Contains agrees with the positional definition of a substring. */
  lemma {:induction false} ContainsIffOccurs(haystack: string, needle: string)
    ensures Contains(haystack, needle) <==> exists i :: OccursAt(haystack, needle, i)
    decreases |haystack|
  {
    if needle <= haystack {
      assert OccursAt(haystack, needle, 0);
    } else if |haystack| == 0 {
    } else {
      var tail := haystack[1..];
      ContainsIffOccurs(tail, needle);
      if Contains(tail, needle) {
        var i :| OccursAt(tail, needle, i);
        assert haystack[i + 1..i + 1 + |needle|] == tail[i..i + |needle|];
        assert OccursAt(haystack, needle, i + 1);
      }
      forall i | OccursAt(haystack, needle, i) ensures Contains(tail, needle) {
        if i > 0 {
          assert haystack[i..i + |needle|] == tail[i - 1..i - 1 + |needle|];
          assert OccursAt(tail, needle, i - 1);
        }
      }
    }
  }

  /** An occurrence in a is an occurrence, at the same place, in anything a starts. */
  lemma OccursInPrefix(a: string, c: string, needle: string, i: int)
    requires OccursAt(a, needle, i)
    ensures OccursAt(a + c, needle, i)
  {
    assert (a + c)[i..i + |needle|] == a[i..i + |needle|];
  }

  /** An occurrence in b is an occurrence, shifted by |c|, in c + b. */
  lemma OccursInSuffix(c: string, b: string, needle: string, i: int)
    requires OccursAt(b, needle, i)
    ensures OccursAt(c + b, needle, i + |c|)
  {
    assert (c + b)[i + |c|..i + |c| + |needle|] == b[i..i + |needle|];
  }

  /** An occurrence of a needle without a space in a + " " + b lies inside a or inside b. */
  lemma OccursInJoined(a: string, b: string, needle: string, k: int)
    requires ' ' !in needle
    requires OccursAt(a + " " + b, needle, k)
    ensures OccursAt(a, needle, k) || OccursAt(b, needle, k - |a| - 1)
  {
    var joined := a + " " + b;
    assert joined[|a|] == ' ';
    assert forall p :: k <= p < k + |needle| ==> joined[p] == needle[p - k];
    if k + |needle| <= |a| {
      assert joined[k..k + |needle|] == a[k..k + |needle|];
    } else if k >= |a| + 1 {
      var i := k - |a| - 1;
      assert joined[k..k + |needle|] == b[i..i + |needle|];
    } else {
      assert false;
    }
  }

  /**
   * A needle without a space never straddles the space that joins two strings,
   * so it is found in `a + " " + b` exactly when it is found in `a` or in `b`.
   */
  lemma ContainsAcrossSpace(a: string, b: string, needle: string)
    requires ' ' !in needle
    ensures Contains(a + " " + b, needle) <==> Contains(a, needle) || Contains(b, needle)
  {
    var joined := a + " " + b;
    ContainsIffOccurs(joined, needle);
    ContainsIffOccurs(a, needle);
    ContainsIffOccurs(b, needle);
    if Contains(a, needle) {
      var i :| OccursAt(a, needle, i);
      OccursInPrefix(a, " " + b, needle, i);
      assert a + (" " + b) == joined;
    }
    if Contains(b, needle) {
      var i :| OccursAt(b, needle, i);
      OccursInSuffix(a + " ", b, needle, i);
    }
    if Contains(joined, needle) {
      var k :| OccursAt(joined, needle, k);
      OccursInJoined(a, b, needle, k);
    }
  }

  /**
   * `sep.join(parts)`: empty for no parts, the single part for one, and otherwise
   * a string that starts with the first part and ends with the last.
   */
  function Join(sep: string, parts: seq<string>): (r: string)
    ensures |parts| == 0 ==> r == ""
    ensures |parts| == 1 ==> r == parts[0]
    ensures |parts| > 0 ==> parts[0] <= r
    ensures |parts| > 0 ==> |parts[|parts| - 1]| <= |r| && r[|r| - |parts[|parts| - 1]|..] == parts[|parts| - 1]
  {
    if |parts| == 0 then ""
    else if |parts| == 1 then parts[0]
    else
      var tail := Join(sep, parts[1..]);
      assert parts[1..][|parts[1..]| - 1] == parts[|parts| - 1];
      assert parts[0] + sep + tail == parts[0] + (sep + tail);
      parts[0] + sep + tail
  }

  /** `s[:n]`: the first n characters, or all of s when it is shorter. */
  function Take(s: string, n: nat): (r: string)
    ensures |r| == if |s| <= n then |s| else n
    ensures r <= s
  {
    if |s| <= n then s else s[..n]
  }

  function DigitChar(d: nat): char
    requires d < 10
  {
    ('0' as int + d) as char
  }

  /** The decimal digits of n, as an f-string renders an int. */
  function NatToString(n: nat): (s: string)
    ensures |s| >= 1
    ensures forall i :: 0 <= i < |s| ==> '0' <= s[i] <= '9'
    ensures n >= 10 ==> s[0] != '0'
  {
    if n < 10 then [DigitChar(n)] else NatToString(n / 10) + [DigitChar(n % 10)]
  }

  /** The number a string of decimal digits denotes. */
  function DigitsValue(s: string): nat
    requires forall i :: 0 <= i < |s| ==> '0' <= s[i] <= '9'
  {
    if s == [] then 0 else DigitsValue(s[..|s| - 1]) * 10 + (s[|s| - 1] as int - '0' as int)
  }

  /** Reading back the rendered digits gives the number. */
  lemma {:induction false} NatToStringRoundTrip(n: nat)
    ensures DigitsValue(NatToString(n)) == n
  {
    var s := NatToString(n);
    if n >= 10 {
      NatToStringRoundTrip(n / 10);
      assert s[..|s| - 1] == NatToString(n / 10);
    }
  }
}
