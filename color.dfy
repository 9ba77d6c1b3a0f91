/**
 * The colour helper of the fallback design (shadeColor in script.js): scale
 * the three channels of a `#rrggbb` colour by (100 + percent) / 100,
 * truncate toward zero, cap at 255 (there is no lower bound) and print each
 * channel in lower-case hexadecimal, padded to two digits when it has one.
 * For an integer percent every step is exact integer arithmetic.
 */
module Color {

  predicate IsHexDigit(c: char)
  {
    '0' <= c <= '9' || 'a' <= c <= 'f' || 'A' <= c <= 'F'
  }

  predicate IsLowerHexDigit(c: char)
  {
    '0' <= c <= '9' || 'a' <= c <= 'f'
  }

  /** The value parseInt(_, 16) gives one hexadecimal digit. */
  function HexValue(c: char): (v: nat)
    requires IsHexDigit(c)
    ensures v < 16
  {
    if '0' <= c <= '9' then c as int - '0' as int
    else if 'a' <= c <= 'f' then c as int - 'a' as int + 10
    else c as int - 'A' as int + 10
  }

  /** The digit Number.prototype.toString(16) prints for a value below 16. */
  function HexDigit(v: nat): (c: char)
    requires v < 16
    ensures IsLowerHexDigit(c) && HexValue(c) == v
  {
    if v < 10 then ('0' as int + v) as char else ('a' as int + v - 10) as char
  }

  /** The colour picker's value: `#` and six hexadecimal digits. */
  predicate IsColor(s: string)
  {
    |s| == 7 && s[0] == '#' && forall k :: 1 <= k < 7 ==> IsHexDigit(s[k])
  }

  /** A colour whose digits are all lower case, as shadeColor prints them. */
  predicate IsLowerColor(s: string)
  {
    |s| == 7 && s[0] == '#' && forall k :: 1 <= k < 7 ==> IsLowerHexDigit(s[k])
  }

  /** parseInt(color.substring(k, k + 2), 16). */
  function Channel(color: string, k: nat): (v: nat)
    requires k + 2 <= |color| && IsHexDigit(color[k]) && IsHexDigit(color[k + 1])
    ensures v <= 255
  {
    16 * HexValue(color[k]) + HexValue(color[k + 1])
  }

  /** Number.prototype.toString(16) on a non-negative integer. */
  function NatToHex(n: nat): string
  {
    if n < 16 then [HexDigit(n)] else NatToHex(n / 16) + [HexDigit(n % 16)]
  }

  /** Number.prototype.toString(16) on an integer: a negative number gets a leading `-`. */
  function ToHex(n: int): string
  {
    if n < 0 then "-" + NatToHex(-n) else NatToHex(n)
  }

  /** `(h.length == 1) ? "0" + h : h`. */
  function PadTwo(h: string): string
  {
    if |h| == 1 then "0" + h else h
  }

  /** Division that truncates toward zero, as parseInt does to the quotient. */
  function TruncDiv(n: int, d: nat): int
    requires d > 0
  {
    if n >= 0 then n / d else -((-n) / d)
  }

  /** One channel: parseInt(c * (100 + percent) / 100), then `(v < 255) ? v : 255`. */
  function Shade(c: int, percent: int): (v: int)
    ensures v <= 255
  {
    var scaled := TruncDiv(c * (100 + percent), 100);
    if scaled < 255 then scaled else 255
  }

  /** One channel as shadeColor prints it. */
  function Encode(v: int): string
  {
    PadTwo(ToHex(v))
  }

  /** shadeColor(color, percent). */
  function ShadeColor(color: string, percent: int): string
    requires IsColor(color)
  {
    "#" + Encode(Shade(Channel(color, 1), percent))
        + Encode(Shade(Channel(color, 3), percent))
        + Encode(Shade(Channel(color, 5), percent))
  }

  // ------------------------------------------------------------ encoding

  /** A channel value in 0..255 prints as two lower-case digits that parse back to it. */
  lemma EncodeRoundTrip(v: int)
    requires 0 <= v <= 255
    ensures |Encode(v)| == 2
    ensures IsLowerHexDigit(Encode(v)[0]) && IsLowerHexDigit(Encode(v)[1])
    ensures Channel(Encode(v), 0) == v
  {
    if v >= 16 {
      assert NatToHex(v / 16) == [HexDigit(v / 16)];
    }
  }

  /** A negative channel prints with a leading minus sign. */
  lemma EncodeNegative(v: int)
    requires v < 0
    ensures |Encode(v)| >= 2 && Encode(v)[0] == '-'
  {
    assert |NatToHex(-v)| >= 1;
  }

  // -------------------------------------------------------- arithmetic

  /** For a percent of at least -100 the scaled value is the floor of c * (100 + percent) / 100. */
  lemma ScaledFloor(c: nat, percent: int)
    requires percent >= -100
    ensures var q := TruncDiv(c * (100 + percent), 100);
      0 <= q && 100 * q <= c * (100 + percent) < 100 * (q + 1)
  {
    assert c * (100 + percent) >= 0;
  }

  /**
   * What Shade computes, without the division: for percent >= -100 a
   * channel becomes the largest integer q with 100 * q <= c * (100 + percent),
   * capped at 255.
   */
  lemma ShadeValue(c: nat, percent: int)
    requires percent >= -100
    ensures var v := Shade(c, percent);
      0 <= v <= 255
      && (v < 255 ==> 100 * v <= c * (100 + percent) < 100 * (v + 1))
      && (v == 255 <==> c * (100 + percent) >= 100 * 255)
  {
    ScaledFloor(c, percent);
  }

  /** Percent 0 leaves a channel unchanged. */
  lemma ShadeZero(c: nat)
    requires c <= 255
    ensures Shade(c, 0) == c
  {
    assert c * (100 + 0) == 100 * c;
  }

  /** A percent of at most zero never raises a channel. */
  lemma DarkenNeverRaises(c: nat, percent: int)
    requires percent <= 0
    ensures Shade(c, percent) <= c
  {
    var n := c * (100 + percent);
    assert n == 100 * c + c * percent;
    assert c * percent <= 0 by { MulNonPos(c, percent); }
  }

  /** A percent of at least zero never lowers a channel in 0..255. */
  lemma LightenNeverLowers(c: nat, percent: int)
    requires c <= 255 && percent >= 0
    ensures Shade(c, percent) >= c
  {
    var n := c * (100 + percent);
    assert n == 100 * c + c * percent;
    assert c * percent >= 0;
  }

  lemma MulNonPos(a: nat, b: int)
    requires b <= 0
    ensures a * b <= 0
  {
    assert a * b == -(a * -b);
  }

  /**
   * There is no lower clamp: below -100 percent a channel turns negative
   * exactly when c * (-100 - percent) reaches 100; a smaller product
   * truncates to zero.
   */
  lemma ShadeBelowMinus100(c: nat, percent: int)
    requires percent < -100
    ensures Shade(c, percent) < 0 <==> c * (-100 - percent) >= 100
    ensures Shade(c, percent) >= 0 ==> Shade(c, percent) == 0
  {
    var m := c * (-100 - percent);
    assert c * (100 + percent) == -m;
    MulNonPos(c, 100 + percent);
  }

  // ------------------------------------------------------------ colours

  /**
   * For percent >= -100 shadeColor prints a well-formed lower-case colour
   * whose channels, read back, are the shaded channels of the input.
   */
  lemma ShadeColorChannels(color: string, percent: int)
    requires IsColor(color) && percent >= -100
    ensures IsLowerColor(ShadeColor(color, percent))
    ensures IsColor(ShadeColor(color, percent))
    ensures Channel(ShadeColor(color, percent), 1) == Shade(Channel(color, 1), percent)
    ensures Channel(ShadeColor(color, percent), 3) == Shade(Channel(color, 3), percent)
    ensures Channel(ShadeColor(color, percent), 5) == Shade(Channel(color, 5), percent)
  {
    var r, g, b := Shade(Channel(color, 1), percent), Shade(Channel(color, 3), percent), Shade(Channel(color, 5), percent);
    ShadeValue(Channel(color, 1), percent);
    ShadeValue(Channel(color, 3), percent);
    ShadeValue(Channel(color, 5), percent);
    EncodeRoundTrip(r);
    EncodeRoundTrip(g);
    EncodeRoundTrip(b);
    ColorOfParts(Encode(r), Encode(g), Encode(b));
  }

  /** Three two-digit lower-case parts after `#` make a colour whose channels are the parts. */
  lemma ColorOfParts(x: string, y: string, z: string)
    requires |x| == 2 && |y| == 2 && |z| == 2
    requires IsLowerHexDigit(x[0]) && IsLowerHexDigit(x[1]) && IsLowerHexDigit(y[0])
    requires IsLowerHexDigit(y[1]) && IsLowerHexDigit(z[0]) && IsLowerHexDigit(z[1])
    ensures IsLowerColor("#" + x + y + z) && IsColor("#" + x + y + z)
    ensures Channel("#" + x + y + z, 1) == Channel(x, 0)
    ensures Channel("#" + x + y + z, 3) == Channel(y, 0)
    ensures Channel("#" + x + y + z, 5) == Channel(z, 0)
  {
    var out := "#" + x + y + z;
    assert out[1] == x[0] && out[2] == x[1];
    assert out[3] == y[0] && out[4] == y[1];
    assert out[5] == z[0] && out[6] == z[1];
  }

  /** Two hexadecimal digits print back as their lower-case forms. */
  lemma EncodeParsed(x: char, y: char)
    requires IsHexDigit(x) && IsHexDigit(y)
    ensures Encode(16 * HexValue(x) + HexValue(y)) == [LowerDigit(x), LowerDigit(y)]
  {
    var v := 16 * HexValue(x) + HexValue(y);
    assert v / 16 == HexValue(x) && v % 16 == HexValue(y);
    if HexValue(x) > 0 {
      assert NatToHex(v) == NatToHex(HexValue(x)) + [HexDigit(HexValue(y))];
    }
  }

  /** The lower-case form of a hexadecimal digit. */
  function LowerDigit(c: char): (d: char)
    requires IsHexDigit(c)
    ensures IsLowerHexDigit(d) && HexValue(d) == HexValue(c)
  {
    if 'A' <= c <= 'F' then (c as int - 'A' as int + 'a' as int) as char else c
  }

  /** At percent 0 one channel prints as its two digits in lower case. */
  lemma EncodeChannelZero(color: string, k: nat)
    requires IsColor(color) && k in {1, 3, 5}
    ensures Encode(Shade(Channel(color, k), 0)) == [LowerDigit(color[k]), LowerDigit(color[k + 1])]
  {
    ShadeZero(Channel(color, k));
    EncodeParsed(color[k], color[k + 1]);
  }

  /** Percent 0 returns the input colour with its digits in lower case. */
  lemma ShadeColorZero(color: string)
    requires IsColor(color)
    ensures ShadeColor(color, 0)
         == ['#', LowerDigit(color[1]), LowerDigit(color[2]), LowerDigit(color[3]),
             LowerDigit(color[4]), LowerDigit(color[5]), LowerDigit(color[6])]
  {
    EncodeChannelZero(color, 1);
    EncodeChannelZero(color, 3);
    EncodeChannelZero(color, 5);
  }

  /**
   * Below -100 percent the output is a colour exactly when every channel
   * truncates to zero, and then it is black; otherwise some channel prints
   * with a `-`.
   */
  lemma ShadeColorBelowMinus100(color: string, percent: int)
    requires IsColor(color) && percent < -100
    ensures IsColor(ShadeColor(color, percent))
        <==> (&& Channel(color, 1) * (-100 - percent) < 100
              && Channel(color, 3) * (-100 - percent) < 100
              && Channel(color, 5) * (-100 - percent) < 100)
    ensures IsColor(ShadeColor(color, percent)) ==> ShadeColor(color, percent) == "#000000"
    ensures !IsColor(ShadeColor(color, percent)) ==> '-' in ShadeColor(color, percent)
  {
    var r, g, b := Shade(Channel(color, 1), percent), Shade(Channel(color, 3), percent), Shade(Channel(color, 5), percent);
    ShadeBelowMinus100(Channel(color, 1), percent);
    ShadeBelowMinus100(Channel(color, 3), percent);
    ShadeBelowMinus100(Channel(color, 5), percent);
    var out := ShadeColor(color, percent);
    assert out == "#" + Encode(r) + Encode(g) + Encode(b);
    if r < 0 {
      EncodeNegative(r);
      assert out[1] == '-';
    } else if g < 0 {
      EncodeNegative(g);
      assert out[1..3] == Encode(r) == "00";
      assert out[3] == '-';
    } else if b < 0 {
      EncodeNegative(b);
      assert out[1..5] == Encode(r) + Encode(g) == "0000";
      assert out[5] == '-';
    } else {
      assert Encode(0) == "00";
    }
  }

  /**
   * The page's secondary colour, shadeColor(color, -20): a lower-case
   * colour none of whose channels is brighter than the primary's.
   */
  lemma DarkerShade(color: string)
    requires IsColor(color)
    ensures IsLowerColor(ShadeColor(color, -20))
    ensures Channel(ShadeColor(color, -20), 1) <= Channel(color, 1)
    ensures Channel(ShadeColor(color, -20), 3) <= Channel(color, 3)
    ensures Channel(ShadeColor(color, -20), 5) <= Channel(color, 5)
  {
    ShadeColorChannels(color, -20);
    DarkenNeverRaises(Channel(color, 1), -20);
    DarkenNeverRaises(Channel(color, 3), -20);
    DarkenNeverRaises(Channel(color, 5), -20);
  }

  /** Shading a grey by 0 percent returns it. */
  lemma ShadeGreyByZero()
    ensures ShadeColor("#808080", 0) == "#808080"
  {
    ShadeColorZero("#808080");
  }

  /** Lightening black leaves it black. */
  lemma LightenBlack()
    ensures ShadeColor("#000000", 50) == "#000000"
  {
    var black := "#000000";
    assert Channel(black, 1) == 0 && Channel(black, 3) == 0 && Channel(black, 5) == 0;
    assert Shade(0, 50) == 0;
    assert Encode(0) == "00";
  }

  /** Darkening white by half truncates 127.5 to 127 in each channel. */
  lemma DarkenWhiteByHalf()
    ensures ShadeColor("#ffffff", -50) == "#7f7f7f"
  {
    var white := "#ffffff";
    assert Channel(white, 1) == 255 && Channel(white, 3) == 255 && Channel(white, 5) == 255;
    assert Shade(255, -50) == 127;
    assert NatToHex(127) == NatToHex(7) + [HexDigit(15)];
    assert Encode(127) == "7f";
  }
}
