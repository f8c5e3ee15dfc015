/**
 * String building blocks used by the cache-key templates: the decimal text
 * JavaScript produces for an integer in a template literal, colon-joined
 * fields, colon counting, and the UTF-16 length that zod's string checks use.
 */
module Text {

  predicate IsDigit(c: char) {
    '0' <= c <= '9'
  }

  predicate AllDigits(s: string) {
    forall i :: 0 <= i < |s| ==> IsDigit(s[i])
  }

  function DigitChar(d: nat): (c: char)
    requires d < 10
    ensures IsDigit(c) && DigitValue(c) == d
  {
    ('0' as int + d) as char
  }

  function DigitValue(c: char): nat
    requires IsDigit(c)
  {
    c as int - '0' as int
  }

  /** The decimal digits of `n`, most significant first (`${n}` for n >= 0). */
  function NatDecimal(n: nat): (s: string)
    ensures 1 <= |s|
    ensures AllDigits(s)
    decreases n
  {
    if n < 10 then [DigitChar(n)] else NatDecimal(n / 10) + [DigitChar(n % 10)]
  }

  /** Reads a string of decimal digits back as a number: the inverse of NatDecimal. */
  function DigitsValue(s: string): nat
    requires AllDigits(s)
  {
    if s == [] then 0 else 10 * DigitsValue(s[..|s| - 1]) + DigitValue(s[|s| - 1])
  }

  lemma {:induction false} DecimalRoundTrip(n: nat)
    ensures DigitsValue(NatDecimal(n)) == n
    decreases n
  {
    if n >= 10 {
      DecimalRoundTrip(n / 10);
      var s := NatDecimal(n / 10) + [DigitChar(n % 10)];
      assert s[..|s| - 1] == NatDecimal(n / 10);
    }
  }

  /** The text of an integer in a JavaScript template literal: an optional '-' and its digits. */
  function IntDecimal(n: int): (s: string)
    ensures 1 <= |s|
    ensures forall i :: 0 <= i < |s| ==> IsDigit(s[i]) || s[i] == '-'
  {
    if n < 0 then "-" + NatDecimal(-n) else NatDecimal(n)
  }

  /** Distinct integers always render as distinct text. */
  lemma IntDecimalInjective(a: int, b: int)
    ensures IntDecimal(a) == IntDecimal(b) <==> a == b
  {
    if IntDecimal(a) == IntDecimal(b) {
      assert IntDecimal(a)[0] == '-' <==> a < 0;
      assert IntDecimal(b)[0] == '-' <==> b < 0;
      if a < 0 {
        assert NatDecimal(-a) == IntDecimal(a)[1..] == IntDecimal(b)[1..] == NatDecimal(-b);
        DecimalRoundTrip(-a);
        DecimalRoundTrip(-b);
      } else {
        DecimalRoundTrip(a);
        DecimalRoundTrip(b);
      }
    }
  }

  /** The number of occurrences of `c` in `s`. */
  function Count(c: char, s: string): nat
  {
    if s == [] then 0 else (if s[0] == c then 1 else 0) + Count(c, s[1..])
  }

  lemma {:induction false} CountAppend(c: char, a: string, b: string)
    ensures Count(c, a + b) == Count(c, a) + Count(c, b)
  {
    if a != [] {
      var ab := a + b;
      assert ab[0] == a[0] && ab[1..] == a[1..] + b;
      CountAppend(c, a[1..], b);
      assert Count(c, ab) == (if ab[0] == c then 1 else 0) + Count(c, ab[1..]);
    } else {
      assert a + b == b;
    }
  }

  /** The fields separated by ':' — the shape of `${a}:${b}:…` in a template literal. */
  function ColonJoin(fields: seq<string>): (s: string)
    requires 1 <= |fields|
    ensures |fields| == 1 ==> s == fields[0]
    ensures |fields| > 1 ==> |fields[0]| < |s| && s[|fields[0]|] == ':'
  {
    if |fields| == 1 then fields[0] else fields[0] + ":" + ColonJoin(fields[1..])
  }

  /** Joining n fields puts at least n - 1 colons into the text. */
  lemma {:induction false} ColonJoinCount(fields: seq<string>)
    requires 1 <= |fields|
    ensures Count(':', ColonJoin(fields)) >= |fields| - 1
  {
    if |fields| > 1 {
      ColonJoinCount(fields[1..]);
      CountAppend(':', fields[0] + ":", ColonJoin(fields[1..]));
      CountAppend(':', fields[0], ":");
    }
  }

  /** Joining n non-empty fields gives at least 2n - 1 characters. */
  lemma {:induction false} ColonJoinLength(fields: seq<string>)
    requires 1 <= |fields|
    requires forall i :: 0 <= i < |fields| ==> 1 <= |fields[i]|
    ensures |ColonJoin(fields)| >= 2 * |fields| - 1
  {
    if |fields| > 1 {
      ColonJoinLength(fields[1..]);
    }
  }

  lemma PrefixOfAppend(x: string, y: string)
    ensures (x + y)[..|x|] == x
  {
  }

  lemma AppendAssoc(x: string, y: string, z: string)
    ensures x + (y + z) == (x + y) + z
  {
  }

  /** Two pairs of leading fields that join to the same text give the same joined text, whatever follows. */
  lemma JoinSameHead(a: string, b: string, c: string, d: string, rest: seq<string>)
    requires 1 <= |rest|
    requires a + ":" + b == c + ":" + d
    ensures ColonJoin([a, b] + rest) == ColonJoin([c, d] + rest)
  {
    JoinTwo(a, b, rest);
    JoinTwo(c, d, rest);
  }

  /** The joined text of two leading fields and the rest, as one flat concatenation. */
  lemma JoinTwo(a: string, b: string, rest: seq<string>)
    requires 1 <= |rest|
    ensures ColonJoin([a, b] + rest) == (a + ":" + b + ":") + ColonJoin(rest)
  {
    var f := [a, b] + rest;
    var x := ColonJoin(rest);
    assert f[0] == a && f[1..] == [b] + rest;
    assert ([b] + rest)[0] == b && ([b] + rest)[1..] == rest;
    assert ColonJoin([b] + rest) == b + ":" + x;
    assert ColonJoin(f) == a + ":" + (b + ":" + x);
    AppendAssoc(a + ":", b + ":", x);
    AppendAssoc(a + ":", b, ":");
  }

  /** When a ':' separates two colon-free prefixes, the prefixes and the remainders agree. */
  lemma SplitAtColon(a: string, b: string, x: string, y: string)
    requires ':' !in a && ':' !in x
    requires a + ":" + b == x + ":" + y
    ensures a == x && b == y
  {
    var s := a + ":" + b;
    assert s[|a|] == ':';
    assert |x| < |s| && s[|x|] == ':';
    assert a == s[..|a|] == x;
    assert b == s[|a| + 1..] == y;
  }

  /** Colon-free fields can be read back from their joined text. */
  lemma {:induction false} ColonJoinInjective(f: seq<string>, g: seq<string>)
    requires 1 <= |f| && |f| == |g|
    requires forall i :: 0 <= i < |f| ==> ':' !in f[i] && ':' !in g[i]
    ensures ColonJoin(f) == ColonJoin(g) <==> f == g
  {
    if ColonJoin(f) == ColonJoin(g) && |f| > 1 {
      SplitAtColon(f[0], ColonJoin(f[1..]), g[0], ColonJoin(g[1..]));
      ColonJoinInjective(f[1..], g[1..]);
      assert f == [f[0]] + f[1..] && g == [g[0]] + g[1..];
    }
  }

  /** The length JavaScript reports for `s`: characters outside the BMP take two UTF-16 code units. */
  function Utf16Length(s: string): (n: nat)
    ensures |s| <= n <= 2 * |s|
  {
    if s == [] then 0 else (if s[0] as int > 0xFFFF then 2 else 1) + Utf16Length(s[1..])
  }
}
