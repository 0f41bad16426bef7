/**
 * The text formatting the generator relies on: Python's `str` of an integer,
 * the `:.1f` format of the opacity, the `"   " * tab_num` indentation and
 * f-string interpolation of values into fixed literal pieces.
 */
module Text {

  predicate IsDigit(c: char) {
    '0' <= c <= '9'
  }

  /** The characters an interpolated number can consist of. */
  predicate IsNumberChar(c: char) {
    IsDigit(c) || c == '-' || c == '.'
  }

  predicate AllNumberChars(s: string) {
    forall i :: 0 <= i < |s| ==> IsNumberChar(s[i])
  }

  function DigitChar(d: int): (c: char)
    requires 0 <= d < 10
    ensures IsDigit(c) && DigitValue(c) == d
  {
    ('0' as int + d) as char
  }

  function DigitValue(c: char): int {
    c as int - '0' as int
  }

  /** Decimal digits of a natural number, most significant first, no leading zeros. */
  function NatToDecimal(n: nat): (r: string)
    ensures |r| > 0
    ensures forall i :: 0 <= i < |r| ==> IsDigit(r[i])
    ensures |r| > 1 ==> r[0] != '0'
    decreases n
  {
    if n < 10 then [DigitChar(n)] else NatToDecimal(n / 10) + [DigitChar(n % 10)]
  }

  /** The value denoted by a string of decimal digits. */
  function DecimalValue(s: string): int
    decreases |s|
  {
    if |s| == 0 then 0 else 10 * DecimalValue(s[..|s| - 1]) + DigitValue(s[|s| - 1])
  }

  lemma {:induction false} DecimalRoundTrip(n: nat)
    ensures DecimalValue(NatToDecimal(n)) == n
    decreases n
  {
    if n >= 10 {
      var s := NatToDecimal(n);
      assert s[..|s| - 1] == NatToDecimal(n / 10);
      DecimalRoundTrip(n / 10);
    }
  }

  /** Python's `str` of an integer. */
  function IntToDecimal(i: int): (r: string)
    ensures |r| > 0 && AllNumberChars(r)
    ensures r[0] == '-' <==> i < 0
  {
    if i < 0 then "-" + NatToDecimal(-i) else NatToDecimal(i)
  }

  lemma IntToDecimalInjective(a: int, b: int)
    ensures IntToDecimal(a) == IntToDecimal(b) <==> a == b
  {
    if IntToDecimal(a) == IntToDecimal(b) {
      if a < 0 && b < 0 {
        assert NatToDecimal(-a) == IntToDecimal(a)[1..] == IntToDecimal(b)[1..] == NatToDecimal(-b);
      }
      if a >= 0 && b >= 0 {
        DecimalRoundTrip(a);
        DecimalRoundTrip(b);
      } else if a < 0 && b < 0 {
        DecimalRoundTrip(-a);
        DecimalRoundTrip(-b);
      }
    }
  }

  /** A non-negative real rounded to tenths (ties rounded up). */
  function RoundTenths(v: real): (t: nat)
    requires v >= 0.0
    ensures (t as real) - 0.5 <= v * 10.0 < (t as real) + 0.5
  {
    (v * 10.0 + 0.5).Floor
  }

  function UnsignedOneDecimal(v: real): (r: string)
    requires v >= 0.0
  {
    var t := RoundTenths(v);
    NatToDecimal(t / 10) + "." + [DigitChar(t % 10)]
  }

  /** Python's `f"{v:.1f}"`: one digit after the decimal point. */
  function OneDecimal(v: real): (r: string)
    ensures |r| >= 3 && AllNumberChars(r)
    ensures r[|r| - 2] == '.'
  {
    if v < 0.0 then "-" + UnsignedOneDecimal(-v) else UnsignedOneDecimal(v)
  }

  /** On [0, 1), the text is "0.d" or "1.0" and denotes the opacity rounded to tenths. */
  lemma OneDecimalOfUnitInterval(v: real)
    requires 0.0 <= v < 1.0
    ensures var r := OneDecimal(v);
      && |r| == 3 && r[1] == '.'
      && (r[0] == '0' || r == "1.0")
      && 10 * DigitValue(r[0]) + DigitValue(r[2]) == RoundTenths(v)
  {
    var t := RoundTenths(v);
    assert t <= 10;
    assert NatToDecimal(t / 10) == [DigitChar(t / 10)];
  }

  /** For non-negative values the text determines exactly the rounded tenths. */
  lemma OneDecimalInjective(a: real, b: real)
    requires a >= 0.0 && b >= 0.0
    ensures OneDecimal(a) == OneDecimal(b) <==> RoundTenths(a) == RoundTenths(b)
  {
    if OneDecimal(a) == OneDecimal(b) {
      var ta, tb := RoundTenths(a), RoundTenths(b);
      var ra, rb := OneDecimal(a), OneDecimal(b);
      assert ra[..|ra| - 2] == NatToDecimal(ta / 10);
      assert rb[..|rb| - 2] == NatToDecimal(tb / 10);
      DecimalRoundTrip(ta / 10);
      DecimalRoundTrip(tb / 10);
      assert DigitValue(ra[|ra| - 1]) == ta % 10;
      assert DigitValue(rb[|rb| - 1]) == tb % 10;
    }
  }

  lemma OpacityExamples()
    ensures OneDecimal(0.0) == "0.0"
    ensures OneDecimal(0.96) == "1.0"
    ensures OneDecimal(0.04) == "0.0"
    ensures OneDecimal(0.73) == "0.7"
  {
  }

  /** Python's `"   " * n`: three spaces per level, nothing for n <= 0. */
  function Tabs(n: int): (r: string)
    ensures |r| == if n > 0 then 3 * n else 0
    ensures forall i :: 0 <= i < |r| ==> r[i] == ' '
    decreases n
  {
    if n <= 0 then "" else "   " + Tabs(n - 1)
  }

  /**
   * An f-string: literal pieces with the values interpolated between them,
   * pieces[0] + values[0] + pieces[1] + ... + values[k-1] + pieces[k],
   * built left to right as `+` associates.
   */
  function Interpolate(pieces: seq<string>, values: seq<string>): string
    requires |pieces| == |values| + 1
    decreases |values|
  {
    if |values| == 0 then pieces[0]
    else
      var k := |values|;
      Interpolate(pieces[..k], values[..k - 1]) + values[k - 1] + pieces[k]
  }

  /** Pieces that precede every interpolated number: each ends with a character no number contains. */
  predicate Delimiting(pieces: seq<string>) {
    forall i :: 0 <= i < |pieces| - 1 ==> |pieces[i]| > 0 && !IsNumberChar(pieces[i][|pieces[i]| - 1])
  }

  lemma DelimiterPosition(r: string, u: string, k: nat)
    requires AllNumberChars(u) && |r| > 0 && !IsNumberChar(r[|r| - 1])
    requires k <= |u|
    ensures IsNumberChar((r + u)[|r + u| - 1 - k]) <==> k < |u|
  {
  }

  lemma SplitAtDelimiter(r1: string, u1: string, r2: string, u2: string)
    requires AllNumberChars(u1) && AllNumberChars(u2)
    requires |r1| > 0 && !IsNumberChar(r1[|r1| - 1])
    requires |r2| > 0 && !IsNumberChar(r2[|r2| - 1])
    requires r1 + u1 == r2 + u2
    ensures u1 == u2 && r1 == r2
  {
    // counting from the end, at the shorter value's start one side shows a delimiter, the other a number character
    var k := if |u1| < |u2| then |u1| else |u2|;
    DelimiterPosition(r1, u1, k);
    DelimiterPosition(r2, u2, k);
    var n := |r1 + u1| - |u1|;
    assert u1 == (r1 + u1)[n..];
    assert u2 == (r2 + u2)[n..];
    assert r1 == (r1 + u1)[..n];
    assert r2 == (r2 + u2)[..n];
  }

  lemma InterpolateEndsWith(pieces: seq<string>, values: seq<string>)
    requires |pieces| == |values| + 1
    ensures |Interpolate(pieces, values)| >= |pieces[|values|]|
    ensures Interpolate(pieces, values)[|Interpolate(pieces, values)| - |pieces[|values|]|..] == pieces[|values|]
  {
  }

  /** With delimiting pieces, the interpolated text determines every value. */
  lemma {:induction false} InterpolateInjective(pieces: seq<string>, v1: seq<string>, v2: seq<string>)
    requires |pieces| == |v1| + 1 && |v1| == |v2|
    requires Delimiting(pieces)
    requires forall i :: 0 <= i < |v1| ==> AllNumberChars(v1[i])
    requires forall i :: 0 <= i < |v2| ==> AllNumberChars(v2[i])
    ensures Interpolate(pieces, v1) == Interpolate(pieces, v2) <==> v1 == v2
    decreases |v1|
  {
    var k := |v1|;
    if k > 0 && Interpolate(pieces, v1) == Interpolate(pieces, v2) {
      var front1, front2 := Interpolate(pieces[..k], v1[..k - 1]), Interpolate(pieces[..k], v2[..k - 1]);
      var n := |Interpolate(pieces, v1)| - |pieces[k]|;
      assert front1 + v1[k - 1] == Interpolate(pieces, v1)[..n];
      assert front2 + v2[k - 1] == Interpolate(pieces, v2)[..n];
      InterpolateEndsWith(pieces[..k], v1[..k - 1]);
      InterpolateEndsWith(pieces[..k], v2[..k - 1]);
      SplitAtDelimiter(front1, v1[k - 1], front2, v2[k - 1]);
      InterpolateInjective(pieces[..k], v1[..k - 1], v2[..k - 1]);
      assert v1 == v1[..k - 1] + [v1[k - 1]] && v2 == v2[..k - 1] + [v2[k - 1]];
    }
  }

  lemma {:induction false} InterpolateStartsWith(pieces: seq<string>, values: seq<string>)
    requires |pieces| == |values| + 1
    ensures |Interpolate(pieces, values)| >= |pieces[0]|
    ensures Interpolate(pieces, values)[..|pieces[0]|] == pieces[0]
    decreases |values|
  {
    var k := |values|;
    if k > 0 {
      InterpolateStartsWith(pieces[..k], values[..k - 1]);
    }
  }

  /** A character that no piece contains and no number contains does not occur in the text. */
  lemma {:induction false} InterpolateExcludes(pieces: seq<string>, values: seq<string>, ch: char)
    requires |pieces| == |values| + 1
    requires !IsNumberChar(ch)
    requires forall i :: 0 <= i < |pieces| ==> ch !in pieces[i]
    requires forall i :: 0 <= i < |values| ==> AllNumberChars(values[i])
    ensures ch !in Interpolate(pieces, values)
    decreases |values|
  {
    var k := |values|;
    if k > 0 {
      InterpolateExcludes(pieces[..k], values[..k - 1], ch);
      NumberExcludes(values[k - 1], ch);
    }
  }

  lemma NumberExcludes(u: string, ch: char)
    requires AllNumberChars(u) && !IsNumberChar(ch)
    ensures ch !in u
  {
  }
}
