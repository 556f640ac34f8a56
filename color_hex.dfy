/** What the colour converter promises about hex text: shape, normal form and the round trip. */
module ColorHex {
  import opened Options
  import opened Strings
  import opened Scanning
  import opened ColorConverter

  lemma ToUpperConcat(a: string, b: string)
    ensures ToUpper(a + b) == ToUpper(a) + ToUpper(b)
  {
  }

  lemma UpperOfLowerHexDigit(d: nat)
    requires d < 16
    ensures UpperChar(LowerHexDigit(d)) == UpperHexDigit(d)
  {
  }

  /** For a channel in [0, 255], `padStart(2, "0")` of its hex numeral, upper-cased, is its two digits. */
  lemma HexByteDigits(x: int)
    ensures var v := Clamp(x, 0, 255);
            ToUpper(HexByte(x)) == [UpperHexDigit(v / 16), UpperHexDigit(v % 16)]
  {
    var v := Clamp(x, 0, 255);
    UpperOfLowerHexDigit(v % 16);
    if v >= 16 {
      UpperOfLowerHexDigit(v / 16);
      assert HexNumeral(v) == [LowerHexDigit(v / 16)] + [LowerHexDigit(v % 16)];
    } else {
      assert HexNumeral(v) == [LowerHexDigit(v)];
      assert PadStart([LowerHexDigit(v)], 2, '0') == PadStart(['0', LowerHexDigit(v)], 2, '0');
    }
  }

  /** The digits `rgbToHex` writes for a colour. */
  function HexDigitsOf(c: RgbColor): string {
    var r, g, b := Clamp(c.r, 0, 255), Clamp(c.g, 0, 255), Clamp(c.b, 0, 255);
    [UpperHexDigit(r / 16), UpperHexDigit(r % 16), UpperHexDigit(g / 16), UpperHexDigit(g % 16),
     UpperHexDigit(b / 16), UpperHexDigit(b % 16)]
  }

  /** `rgbToHex` writes `#` and six upper-case hex digits: the two digits of each clamped channel. */
  lemma RgbToHexShape(c: RgbColor)
    ensures RgbToHex(c) == "#" + HexDigitsOf(c)
    ensures |RgbToHex(c)| == 7 && RgbToHex(c)[0] == '#' && SixUpperHex(RgbToHex(c)[1..])
  {
    HexByteDigits(c.r);
    HexByteDigits(c.g);
    HexByteDigits(c.b);
    ToUpperConcat(HexByte(c.r) + HexByte(c.g), HexByte(c.b));
    ToUpperConcat(HexByte(c.r), HexByte(c.g));
  }

  lemma UpperCharOfUpperHex(ch: char)
    requires IsUpperHexDigit(ch)
    ensures UpperChar(ch) == ch
  {
  }

  /** Text of six upper-case hex digits behind a `#` is already in normal form. */
  lemma NormalizeHexOfSix(body: string)
    requires SixUpperHex(body)
    ensures NormalizeHex("#" + body) == "#" + body
  {
    assert StripHash("#" + body) == body;
    forall i | 0 <= i < |body|
      ensures ToUpper(body)[i] == body[i]
    {
      UpperCharOfUpperHex(body[i]);
    }
  }

  lemma HexValueOfUpperHexDigit(d: nat)
    requires d < 16
    ensures HexValue(UpperHexDigit(d)) == d
  {
  }

  /** Two digits written for a channel are read back as that channel. */
  lemma HexPairOfDigits(v: int)
    requires 0 <= v < 256
    ensures HexPair(UpperHexDigit(v / 16), UpperHexDigit(v % 16)) == v
  {
  }

  /** `hexToRgb(rgbToHex(r, g, b))` gives back every channel in [0, 255]. */
  lemma HexRoundTrip(c: RgbColor)
    requires 0 <= c.r <= 255 && 0 <= c.g <= 255 && 0 <= c.b <= 255
    ensures HexToRgb(RgbToHex(c)) == Some(c)
  {
    var hex := RgbToHex(c);
    var body := HexDigitsOf(c);
    assert hex == "#" + body && SixUpperHex(body) by {
      RgbToHexShape(c);
    }
    assert NormalizeHex(hex)[1..] == body by {
      NormalizeHexOfSix(body);
    }
    HexPairOfDigits(c.r);
    HexPairOfDigits(c.g);
    HexPairOfDigits(c.b);
    assert HexToRgb(hex) == Some(RgbColor(HexPair(body[0], body[1]), HexPair(body[2], body[3]), HexPair(body[4], body[5])));
  }

  /** A channel read from two upper-case digits is written back as those digits. */
  lemma DigitsOfPair(a: char, b: char)
    requires IsUpperHexDigit(a) && IsUpperHexDigit(b)
    ensures var v := HexPair(a, b); UpperHexDigit(v / 16) == a && UpperHexDigit(v % 16) == b
  {
    var v := HexPair(a, b);
    assert v / 16 == HexValue(a) && v % 16 == HexValue(b);
  }

  /** The other way round: when `hexToRgb` reads a colour, `rgbToHex` writes back its normal form. */
  lemma HexToRgbThenHex(hex: string)
    requires HexToRgb(hex).Some?
    ensures RgbToHex(HexToRgb(hex).value) == NormalizeHex(hex)
  {
    var n := NormalizeHex(hex);
    var body := n[1..];
    assert SixUpperHex(body);
    var c := HexToRgb(hex).value;
    assert c == RgbColor(HexPair(body[0], body[1]), HexPair(body[2], body[3]), HexPair(body[4], body[5]));
    DigitsOfPair(body[0], body[1]);
    DigitsOfPair(body[2], body[3]);
    DigitsOfPair(body[4], body[5]);
    assert HexDigitsOf(c) == body;
    assert RgbToHex(c) == "#" + HexDigitsOf(c) by {
      RgbToHexShape(c);
    }
    assert n == "#" + body;
  }

  // ---------------------------------------------------------------- normalizeHex

  lemma ToUpperIdempotent(s: string)
    ensures ToUpper(ToUpper(s)) == ToUpper(s)
  {
  }

  /**
   * `normalizeHex` drops one leading `#`, upper-cases, writes each digit of a three-digit value twice,
   * keeps every other length, and puts one `#` in front.
   */
  lemma NormalizeHexShape(hex: string)
    ensures var t := StripHash(hex);
            var n := NormalizeHex(hex);
            n[0] == '#' && |n| == 1 + (if |t| == 3 then 6 else |t|)
            && (|t| == 3 ==> forall i | 0 <= i < 6 :: n[1 + i] == UpperChar(t[i / 2]))
            && (|t| != 3 ==> forall i | 0 <= i < |t| :: n[1 + i] == UpperChar(t[i]))
  {
  }

  /** The body of a normal form is never three characters long and holds no lower-case letter. */
  lemma NormalizedHexBody(hex: string)
    ensures var n := NormalizeHex(hex);
            n == "#" + n[1..] && |n| != 4 && forall i | 1 <= i < |n| :: !('a' <= n[i] <= 'z')
  {
    var t := StripHash(hex);
    var upper := ToUpper(t);
    var n := NormalizeHex(hex);
    forall i | 1 <= i < |n|
      ensures !('a' <= n[i] <= 'z')
    {
      if |upper| == 3 {
        assert n[i] == upper[(i - 1) / 2] by {
          var k := (i - 1) / 2;
          assert i - 1 == 2 * k || i - 1 == 2 * k + 1;
        }
      } else {
        assert n[i] == upper[i - 1];
      }
    }
  }

  /** Normalising hex text twice is the same as normalising it once. */
  lemma NormalizeHexIdempotent(hex: string)
    ensures NormalizeHex(NormalizeHex(hex)) == NormalizeHex(hex)
  {
    var n := NormalizeHex(hex);
    var body := n[1..];
    NormalizedHexBody(hex);
    assert StripHash(n) == body;
    assert ToUpper(body) == body;
  }

  /** Text behind a `#` matches none of the comma-separated patterns: they start with a digit. */
  lemma HashNotFields(body: string, markers: seq<Option<char>>)
    requires |markers| > 0
    ensures !MatchesWhole("#" + body, markers)
  {
    var s := "#" + body;
    SkipSpacesNone(s);
    assert DigitRun(s) == 0;
  }

  /** Text behind a `#` is hex or nothing. */
  lemma DetectHashText(body: string)
    ensures DetectFormat("#" + body) == if HexPattern("#" + body) then Some(Hex) else None
  {
    NotBlank("#" + body, 0);
    HashNotFields(body, RgbMarks);
    HashNotFields(body, HslMarks);
    HashNotFields(body, CmykMarks);
  }

  /** A hex body with no lower-case letter and other than three characters long. */
  lemma UpperLongHex(body: string)
    requires |body| != 3 && forall i | 0 <= i < |body| :: !('a' <= body[i] <= 'z')
    ensures ShortOrLongHex(body) <==> SixUpperHex(body)
  {
  }

  /** Text behind a `#` with no lower-case letter and a body of other than three characters. */
  lemma DetectHashUpper(n: string)
    requires n != [] && n[0] == '#' && |n| != 4
    requires forall i | 1 <= i < |n| :: !('a' <= n[i] <= 'z')
    ensures DetectFormat(n) == if SixUpperHex(n[1..]) then Some(Hex) else None
  {
    var body := n[1..];
    assert n == "#" + body;
    DetectHashText(body);
    assert HexPattern(n) == ShortOrLongHex(body);
    UpperLongHex(body);
  }

  /**
   * Normalised hex text is recognised as hex exactly when its body is six hex digits, and is not
   * recognised at all otherwise.
   */
  lemma DetectNormalizedHex(hex: string)
    ensures DetectFormat(NormalizeHex(hex))
         == if SixUpperHex(NormalizeHex(hex)[1..]) then Some(Hex) else None
  {
    NormalizedHexBody(hex);
    DetectHashUpper(NormalizeHex(hex));
  }
}
