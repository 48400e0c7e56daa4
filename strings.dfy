/** Character-level text operations the stores rely on: ASCII lower-casing, substring
    containment (Python's `needle in hay`), decimal rendering of integers and the truncation
    of a clock reading to whole seconds (Python's `int(x)` on a float). */
module Strings {

  /** Lower-cases an ASCII capital; every other character is left as it is. */
  function LowerChar(c: char): (r: char)
    ensures 'A' <= c <= 'Z' ==> 'a' <= r <= 'z' && r as int - c as int == 32
    ensures !('A' <= c <= 'Z') ==> r == c
  {
    if 'A' <= c <= 'Z' then (c as int + 32) as char else c
  }

  function Lower(s: string): (r: string)
    ensures |r| == |s|
  {
    seq(|s|, i requires 0 <= i < |s| => LowerChar(s[i]))
  }

  /** `needle` occurs somewhere in `hay` (the empty needle occurs everywhere). */
  predicate Contains(hay: string, needle: string)
    decreases |hay|
  {
    needle <= hay || (hay != [] && Contains(hay[1..], needle))
  }

  /** `needle` occurs in `hay` starting at position `i`. */
  ghost predicate OccursAt(hay: string, needle: string, i: int)
  {
    0 <= i && i + |needle| <= |hay| && hay[i..i + |needle|] == needle
  }

  /** Contains agrees with the textbook definition "some window of `hay` equals `needle`". */
  lemma {:induction false} ContainsIff(hay: string, needle: string)
    ensures Contains(hay, needle) <==> exists i :: OccursAt(hay, needle, i)
    decreases |hay|
  {
    if needle <= hay {
      assert OccursAt(hay, needle, 0);
    } else if hay == [] {
    } else {
      var tail := hay[1..];
      ContainsIff(tail, needle);
      if exists i :: OccursAt(hay, needle, i) {
        var i :| OccursAt(hay, needle, i);
        assert i != 0;
        assert tail[i - 1..i - 1 + |needle|] == hay[i..i + |needle|];
        assert OccursAt(tail, needle, i - 1);
      }
      if Contains(tail, needle) {
        var i :| OccursAt(tail, needle, i);
        assert hay[i + 1..i + 1 + |needle|] == tail[i..i + |needle|];
        assert OccursAt(hay, needle, i + 1);
      }
    }
  }

  lemma ContainsSelf(s: string)
    ensures Contains(s, s)
  {
  }

  /** A text contains each of its infixes. */
  lemma ContainsInfix(a: string, b: string, c: string)
    ensures Contains(a + b + c, b)
  {
    ContainsIff(a + b + c, b);
    assert (a + b + c)[|a|..|a| + |b|] == b;
    assert OccursAt(a + b + c, b, |a|);
  }

  /** Text added on either side does not hide an occurrence. */
  lemma ContainsWithin(a: string, hay: string, c: string, needle: string)
    requires Contains(hay, needle)
    ensures Contains(a + hay + c, needle)
  {
    ContainsIff(hay, needle);
    var i :| OccursAt(hay, needle, i);
    assert (a + hay + c)[|a| + i..|a| + i + |needle|] == hay[i..i + |needle|];
    assert OccursAt(a + hay + c, needle, |a| + i);
    ContainsIff(a + hay + c, needle);
  }

  /** Text added in front does not hide an occurrence, nor a prefix. */
  lemma ContainsAfter(a: string, hay: string, needle: string)
    requires Contains(hay, needle) || needle <= hay
    ensures Contains(a + hay, needle)
  {
    if needle <= hay {
      ContainsInfix(a, needle, hay[|needle|..]);
      assert a + needle + hay[|needle|..] == a + hay;
    } else {
      ContainsWithin(a, hay, "", needle);
      assert a + hay + "" == a + hay;
    }
  }

  /** A text starts with any of its prefixes. */
  lemma PrefixOfAppend(a: string, b: string)
    ensures a <= a + b
  {
  }

  /** Text added on either side does not hide an occurrence of any of `needles`. */
  lemma ContainsAllWithin(a: string, hay: string, c: string, needles: seq<string>)
    requires forall i :: 0 <= i < |needles| ==> Contains(hay, needles[i])
    ensures forall i :: 0 <= i < |needles| ==> Contains(a + hay + c, needles[i])
  {
    forall i | 0 <= i < |needles| ensures Contains(a + hay + c, needles[i]) {
      ContainsWithin(a, hay, c, needles[i]);
    }
  }

  /** The case-insensitive test both stores apply: `query.lower() in content.lower()`. */
  predicate Matches(query: string, content: string)
  {
    Contains(Lower(content), Lower(query))
  }

  /** Every text matches itself, and the empty query matches every text. */
  lemma MatchesSelfAndEmpty(s: string, t: string)
    ensures Matches(s, s)
    ensures Matches("", t)
  {
    ContainsSelf(Lower(s));
  }

  function DigitChar(d: nat): (c: char)
    requires d < 10
    ensures '0' <= c <= '9'
  {
    ('0' as int + d) as char
  }

  /** The decimal digits of `n`, most significant first, without leading zeros. */
  function NatToDecimal(n: nat): (r: string)
    ensures |r| >= 1
    ensures forall i :: 0 <= i < |r| ==> '0' <= r[i] <= '9'
    ensures (r[0] == '0') == (n == 0)
  {
    if n < 10 then [DigitChar(n)] else NatToDecimal(n / 10) + [DigitChar(n % 10)]
  }

  /** Python's `str(i)` for an integer. */
  function IntToDecimal(i: int): (r: string)
    ensures |r| >= 1
    ensures (r[0] == '-') == (i < 0)
  {
    if i < 0 then "-" + NatToDecimal(-i) else NatToDecimal(i)
  }

  /** Python's `int(x)` for a float: the whole part, rounding toward zero. */
  function TruncateToInt(x: real): (r: int)
    ensures 0.0 <= x ==> 0 <= r && r as real <= x < r as real + 1.0
    ensures x < 0.0 ==> r <= 0 && r as real - 1.0 < x <= r as real
  {
    if x >= 0.0 then x.Floor else -((-x).Floor)
  }
}
