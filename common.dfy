/** Failure-compatible wrappers used where the source returns null or throws. */
module Wrappers {
  datatype Option<+T> = None | Some(value: T)

  datatype Result<+T, +E> = Ok(value: T) | Err(error: E)
}

/**
 * Points, vectors and the tolerance tests of the drawing engine.  Every
 * double of the source is a `real` here: the algebraic facts proved below
 * hold exactly over the reals and only approximately over doubles.
 */
module Geometry {
  /** Tolerance of the approximate comparisons (a positive constant). */
  const Epsilon: real := 0.000000000001

  function Abs(x: real): (r: real)
    ensures r >= 0.0
    ensures r == x || r == -x
  {
    if x < 0.0 then -x else x
  }

  /** Approximate equality of two numbers. */
  predicate CloseTo(a: real, b: real) {
    Abs(a - b) < Epsilon
  }

  datatype Point = Point(x: real, y: real, z: real)

  datatype Vector = Vector(x: real, y: real, z: real)

  const Origin: Point := Point(0.0, 0.0, 0.0)
  const Zero: Vector := Vector(0.0, 0.0, 0.0)
  const XAxis: Vector := Vector(1.0, 0.0, 0.0)
  const YAxis: Vector := Vector(0.0, 1.0, 0.0)
  const ZAxis: Vector := Vector(0.0, 0.0, 1.0)

  /** The displacement from `q` to `p` (`p - q`). */
  function Diff(p: Point, q: Point): (v: Vector)
    ensures Translate(q, v) == p
  {
    Vector(p.x - q.x, p.y - q.y, p.z - q.z)
  }

  /** `p + v`. */
  function Translate(p: Point, v: Vector): Point {
    Point(p.x + v.x, p.y + v.y, p.z + v.z)
  }

  /** Squared distance between two points. */
  function DistanceSquared(p: Point, q: Point): (r: real)
    ensures r >= 0.0
  {
    Sq(p.x - q.x) + Sq(p.y - q.y) + Sq(p.z - q.z)
  }

  function Sq(x: real): (r: real)
    ensures r >= 0.0
  {
    x * x
  }
}

/** Colours: the palette index with its "auto" sentinel, and 8-bit ARGB colours. */
module Colors {
  newtype byte = x: int | 0 <= x < 256

  /** Either a palette index or Auto, meaning "inherit from the context". */
  datatype IndexedColor = Auto | Index(value: byte)

  /** An opaque or translucent colour with 8-bit channels. */
  datatype RealColor = RealColor(a: byte, r: byte, g: byte, b: byte)

  /** An opaque colour. */
  function FromRgb(r: byte, g: byte, b: byte): (c: RealColor)
    ensures c.a == 255
    ensures c == FromArgb(255, r, g, b)
  {
    RealColor(255, r, g, b)
  }

  /** A colour with the given alpha. */
  function FromArgb(a: byte, r: byte, g: byte, b: byte): (c: RealColor)
    ensures (c.a, c.r, c.g, c.b) == (a, r, g, b)
  {
    RealColor(a, r, g, b)
  }

  /** Different channel values give different colours, so FromArgb loses nothing. */
  lemma FromArgbInjective(a: byte, r: byte, g: byte, b: byte, a': byte, r': byte, g': byte, b': byte)
    ensures FromArgb(a, r, g, b) == FromArgb(a', r', g', b') <==> (a, r, g, b) == (a', r', g', b')
  {
  }

  /** Two opaque colours agree exactly when their red, green and blue agree. */
  lemma FromRgbInjective(r: byte, g: byte, b: byte, r': byte, g': byte, b': byte)
    ensures FromRgb(r, g, b) == FromRgb(r', g', b') <==> (r, g, b) == (r', g', b')
  {
  }
}

/** Decimal rendering of integers (`int.ToString()` in the invariant culture) and its parser. */
module Decimal {
  import opened Wrappers

  predicate IsDigit(c: char) {
    '0' <= c <= '9'
  }

  function DigitChar(d: nat): (c: char)
    requires d < 10
    ensures IsDigit(c)
    ensures DigitValue(c) == d
  {
    ['0', '1', '2', '3', '4', '5', '6', '7', '8', '9'][d]
  }

  function DigitValue(c: char): (d: nat)
    requires IsDigit(c)
    ensures d < 10
  {
    (c as int - '0' as int) as nat
  }

  /** The shortest decimal rendering of `n`: no sign, no leading zero. */
  function NatToString(n: nat): (s: string)
    ensures |s| > 0
    ensures forall i | 0 <= i < |s| :: IsDigit(s[i])
    ensures |s| > 1 ==> s[0] != '0'
    decreases n
  {
    if n < 10 then [DigitChar(n)] else NatToString(n / 10) + [DigitChar(n % 10)]
  }

  /** `int.ToString()`: a minus sign before the digits of a negative number. */
  function IntToString(v: int): (s: string)
    ensures |s| > 0
    ensures v >= 0 ==> IsDigit(s[0])
    ensures v < 0 ==> s[0] == '-'
  {
    if v < 0 then "-" + NatToString(-v) else NatToString(v)
  }

  /** The value of a string of digits. */
  function DigitsValue(s: string): (n: nat)
    requires forall i | 0 <= i < |s| :: IsDigit(s[i])
  {
    if s == [] then 0 else DigitsValue(s[..|s| - 1]) * 10 + DigitValue(s[|s| - 1])
  }

  /** The length of the longest run of digits at the start of `s`. */
  function DigitPrefixLength(s: string): (k: nat)
    ensures k <= |s|
    ensures forall i | 0 <= i < k :: IsDigit(s[i])
    ensures k < |s| ==> !IsDigit(s[k])
  {
    if s == [] || !IsDigit(s[0]) then 0 else 1 + DigitPrefixLength(s[1..])
  }

  /** Reads an optionally signed decimal integer filling the whole string. */
  function ParseInt(s: string): Option<int> {
    if |s| > 0 && s[0] == '-' then
      var k := DigitPrefixLength(s[1..]);
      if k == |s| - 1 && k > 0 then Some(-(DigitsValue(s[1..]) as int)) else None
    else
      var k := DigitPrefixLength(s);
      if k == |s| && k > 0 then Some(DigitsValue(s)) else None
  }

  lemma {:induction false} NatToStringValue(n: nat)
    ensures DigitsValue(NatToString(n)) == n
    decreases n
  {
    var s := NatToString(n);
    if n >= 10 {
      NatToStringValue(n / 10);
      assert s[..|s| - 1] == NatToString(n / 10);
    }
  }

  lemma {:induction false} DigitPrefixOfDigits(s: string, rest: string)
    requires forall i | 0 <= i < |s| :: IsDigit(s[i])
    requires rest == [] || !IsDigit(rest[0])
    ensures DigitPrefixLength(s + rest) == |s|
    decreases |s|
  {
    if s != [] {
      assert (s + rest)[1..] == s[1..] + rest;
      DigitPrefixOfDigits(s[1..], rest);
    }
  }

  /** Reading back the rendering of any integer gives that integer. */
  lemma IntToStringRoundTrip(v: int)
    ensures ParseInt(IntToString(v)) == Some(v)
  {
    var digits := NatToString(if v < 0 then -v else v);
    DigitPrefixOfDigits(digits, []);
    assert digits + [] == digits;
    NatToStringValue(if v < 0 then -v else v);
    if v < 0 {
      assert IntToString(v)[1..] == digits;
    }
  }
}
