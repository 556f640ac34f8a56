/**
 * What the colour converter promises end to end: normalised text is detected as the format it was
 * typed in (hex only when it is six digits), it always converts, normalising is idempotent, and the
 * four forms `convertAllFormats` writes are themselves canonical text that reads back to the same hub.
 */
module ColorConvert {
  import opened Options
  import opened Strings
  import opened Scanning
  import opened ColorConverter
  import opened ColorHex
  import opened ColorMath
  import opened ColorText

  /** The normaliser of each format. */
  lemma NormalizeOf(t: string)
    ensures Normalize(t, Hex) == NormalizeHex(t) && Normalize(t, Rgb) == NormalizeRgb(t)
    ensures Normalize(t, Hsl) == NormalizeHsl(t) && Normalize(t, Cmyk) == NormalizeCmyk(t)
  {
  }

  lemma RgbInRange(v: seq<nat>)
    requires |v| == 3 && v[0] <= 255 && v[1] <= 255 && v[2] <= 255
    ensures [Clamp(v[0], 0, 255), Clamp(v[1], 0, 255), Clamp(v[2], 0, 255)] == v
  {
    assert Clamp(v[0], 0, 255) == v[0];
    assert Clamp(v[1], 0, 255) == v[1];
    assert Clamp(v[2], 0, 255) == v[2];
  }

  lemma RgbReadBack(v: seq<nat>)
    requires |v| == 3
    ensures Search(Render(v, RgbMarks), RgbMarks) == Some(v)
  {
    MarksGood();
    SearchRender(v, RgbMarks);
  }

  lemma HslInRange(v: seq<nat>)
    requires |v| == 3 && v[0] <= 360 && v[1] <= 100 && v[2] <= 100
    ensures [Clamp(v[0], 0, 360), Clamp(v[1], 0, 100), Clamp(v[2], 0, 100)] == v
  {
    assert Clamp(v[0], 0, 360) == v[0];
    assert Clamp(v[1], 0, 100) == v[1];
    assert Clamp(v[2], 0, 100) == v[2];
  }

  lemma HslReadBack(v: seq<nat>)
    requires |v| == 3
    ensures Search(Render(v, HslMarks), HslMarks) == Some(v)
  {
    MarksGood();
    SearchRender(v, HslMarks);
  }

  lemma CmykInRange(v: seq<nat>)
    requires |v| == 4 && v[0] <= 100 && v[1] <= 100 && v[2] <= 100 && v[3] <= 100
    ensures [Clamp(v[0], 0, 100), Clamp(v[1], 0, 100), Clamp(v[2], 0, 100), Clamp(v[3], 0, 100)] == v
  {
    assert Clamp(v[0], 0, 100) == v[0];
    assert Clamp(v[1], 0, 100) == v[1];
    assert Clamp(v[2], 0, 100) == v[2];
    assert Clamp(v[3], 0, 100) == v[3];
  }

  lemma CmykReadBack(v: seq<nat>)
    requires |v| == 4
    ensures Search(Render(v, CmykMarks), CmykMarks) == Some(v)
  {
    MarksGood();
    SearchRender(v, CmykMarks);
  }

  /** `normalizeRgb` once the pattern is found. */
  lemma NormalizeRgbFound(t: string, v: seq<nat>)
    requires Search(t, RgbMarks) == Some(v)
    ensures NormalizeRgb(t) == Render([Clamp(v[0], 0, 255), Clamp(v[1], 0, 255), Clamp(v[2], 0, 255)], RgbMarks)
  {
  }

  /** `normalizeHsl` once the pattern is found. */
  lemma NormalizeHslFound(t: string, v: seq<nat>)
    requires Search(t, HslMarks) == Some(v)
    ensures NormalizeHsl(t) == Render([Clamp(v[0], 0, 360), Clamp(v[1], 0, 100), Clamp(v[2], 0, 100)], HslMarks)
  {
  }

  /** `normalizeCmyk` once the pattern is found. */
  lemma NormalizeCmykFound(t: string, v: seq<nat>)
    requires Search(t, CmykMarks) == Some(v)
    ensures NormalizeCmyk(t) == Render([Clamp(v[0], 0, 100), Clamp(v[1], 0, 100), Clamp(v[2], 0, 100), Clamp(v[3], 0, 100)], CmykMarks)
  {
  }

  /** An rgb field list already in range is left alone by `normalizeRgb`. */
  lemma NormalizeRgbOfFields(v: seq<nat>)
    requires |v| == 3 && v[0] <= 255 && v[1] <= 255 && v[2] <= 255
    ensures NormalizeRgb(Render(v, RgbMarks)) == Render(v, RgbMarks)
  {
    RgbReadBack(v);
    RgbInRange(v);
    NormalizeRgbFound(Render(v, RgbMarks), v);
  }

  /** An hsl field list already in range is left alone by `normalizeHsl`. */
  lemma NormalizeHslOfFields(v: seq<nat>)
    requires |v| == 3 && v[0] <= 360 && v[1] <= 100 && v[2] <= 100
    ensures NormalizeHsl(Render(v, HslMarks)) == Render(v, HslMarks)
  {
    HslReadBack(v);
    HslInRange(v);
    NormalizeHslFound(Render(v, HslMarks), v);
  }

  /** A cmyk field list already in range is left alone by `normalizeCmyk`. */
  lemma NormalizeCmykOfFields(v: seq<nat>)
    requires |v| == 4 && v[0] <= 100 && v[1] <= 100 && v[2] <= 100 && v[3] <= 100
    ensures NormalizeCmyk(Render(v, CmykMarks)) == Render(v, CmykMarks)
  {
    CmykReadBack(v);
    CmykInRange(v);
    NormalizeCmykFound(Render(v, CmykMarks), v);
  }

  /** `normalizeRgb` leaves its own output alone. */
  lemma NormalizeRgbIdempotent(rgb: string)
    ensures NormalizeRgb(NormalizeRgb(rgb)) == NormalizeRgb(rgb)
  {
    var n := NormalizeRgb(rgb);
    assert Search(n, RgbMarks).Some? by {
      NormalizeRgbFields(rgb);
    }
    var v := Search(n, RgbMarks).value;
    assert v[0] <= 255 && v[1] <= 255 && v[2] <= 255 && n == Render(v, RgbMarks) by {
      NormalizeRgbFields(rgb);
    }
    NormalizeRgbOfFields(v);
  }

  /** `normalizeHsl` leaves its own output alone. */
  lemma NormalizeHslIdempotent(hsl: string)
    ensures NormalizeHsl(NormalizeHsl(hsl)) == NormalizeHsl(hsl)
  {
    var n := NormalizeHsl(hsl);
    assert Search(n, HslMarks).Some? by {
      NormalizeHslFields(hsl);
    }
    var v := Search(n, HslMarks).value;
    assert v[0] <= 360 && v[1] <= 100 && v[2] <= 100 && n == Render(v, HslMarks) by {
      NormalizeHslFields(hsl);
    }
    NormalizeHslOfFields(v);
  }

  /** `normalizeCmyk` leaves its own output alone. */
  lemma NormalizeCmykIdempotent(cmyk: string)
    ensures NormalizeCmyk(NormalizeCmyk(cmyk)) == NormalizeCmyk(cmyk)
  {
    var n := NormalizeCmyk(cmyk);
    assert Search(n, CmykMarks).Some? by {
      NormalizeCmykFields(cmyk);
    }
    var v := Search(n, CmykMarks).value;
    assert v[0] <= 100 && v[1] <= 100 && v[2] <= 100 && v[3] <= 100 && n == Render(v, CmykMarks) by {
      NormalizeCmykFields(cmyk);
    }
    NormalizeCmykOfFields(v);
  }

  /** Normalising twice gives the same text as normalising once, in every format. */
  lemma NormalizeIdempotent(color: string, format: ColorFormat)
    ensures Normalize(Normalize(color, format), format) == Normalize(color, format)
  {
    NormalizeOf(color);
    NormalizeOf(Normalize(color, format));
    match format
    case Hex => NormalizeHexIdempotent(color);
    case Rgb => NormalizeRgbIdempotent(color);
    case Hsl => NormalizeHslIdempotent(color);
    case Cmyk => NormalizeCmykIdempotent(color);
  }

  /**
   * Normalised text is detected as the format it was normalised for; the only exception is hex
   * whose normal form is not six hexadecimal digits, which is not detected at all.
   */
  lemma DetectNormalized(color: string, format: ColorFormat)
    ensures DetectFormat(Normalize(color, format))
         == if format == Hex && !SixUpperHex(NormalizeHex(color)[1..]) then None else Some(format)
  {
    match format
    case Hex => DetectNormalizedHex(color);
    case Rgb => NormalizeRgbFields(color);
    case Hsl => NormalizeHslFields(color);
    case Cmyk => NormalizeCmykFields(color);
  }

  /** Reading text as cmyk, once its quadruple is found. */
  lemma ToRgbCmyk(t: string)
    requires Search(t, CmykMarks).Some?
    ensures var v := Search(t, CmykMarks).value;
            ToRgb(t, Cmyk) == Some(CmykToRgb(CmykColor(v[0], v[1], v[2], v[3])))
  {
  }

  /** Reading text as hsl, once its triple is found. */
  lemma ToRgbHsl(t: string)
    requires Search(t, HslMarks).Some?
    ensures var v := Search(t, HslMarks).value;
            ToRgb(t, Hsl) == Some(HslToRgb(HslColor(v[0], v[1], v[2])))
  {
  }

  /** Reading text as rgb, once its triple is found. */
  lemma ToRgbRgb(t: string)
    requires Search(t, RgbMarks).Some?
    ensures var v := Search(t, RgbMarks).value;
            ToRgb(t, Rgb) == Some(RgbColor(v[0], v[1], v[2]))
  {
  }

  /** Normalised hex text of six digits reads as a colour in gamut. */
  lemma HexHub(color: string)
    requires SixUpperHex(NormalizeHex(color)[1..])
    ensures var hub := ToRgb(NormalizeHex(color), Hex); hub.Some? && InGamut(hub.value)
  {
    NormalizeHexIdempotent(color);
  }

  /** Normalised rgb text reads as the clamped channels. */
  lemma RgbHub(color: string)
    ensures var hub := ToRgb(NormalizeRgb(color), Rgb); hub.Some? && InGamut(hub.value)
  {
    NormalizeRgbFields(color);
  }

  /** Normalised hsl text reads as a colour in gamut. */
  lemma HslHub(color: string)
    ensures var hub := ToRgb(NormalizeHsl(color), Hsl); hub.Some? && InGamut(hub.value)
  {
    var n := NormalizeHsl(color);
    assert Search(n, HslMarks).Some? && Search(n, HslMarks).value[0] <= 360
        && Search(n, HslMarks).value[1] <= 100 && Search(n, HslMarks).value[2] <= 100 by {
      NormalizeHslFields(color);
    }
    var v := Search(n, HslMarks).value;
    var hsl := HslColor(v[0], v[1], v[2]);
    ToRgbHsl(n);
    HslToRgbRanges(hsl);
  }

  /** Normalised cmyk text reads as a colour in gamut. */
  lemma CmykHub(color: string)
    ensures var hub := ToRgb(NormalizeCmyk(color), Cmyk); hub.Some? && InGamut(hub.value)
  {
    var n := NormalizeCmyk(color);
    assert Search(n, CmykMarks).Some? && Search(n, CmykMarks).value[0] <= 100
        && Search(n, CmykMarks).value[1] <= 100 && Search(n, CmykMarks).value[2] <= 100
        && Search(n, CmykMarks).value[3] <= 100 by {
      NormalizeCmykFields(color);
    }
    var v := Search(n, CmykMarks).value;
    var k := CmykColor(v[0], v[1], v[2], v[3]);
    ToRgbCmyk(n);
    CmykToRgbRanges(k);
  }

  /**
   * Whenever normalised text is detected, reading it in the detected format gives a colour in gamut,
   * so `convertAllFormats` can always finish on it.
   */
  lemma NormalizedHub(color: string, format: ColorFormat)
    ensures var n := Normalize(color, format);
            var f := DetectFormat(n);
            f.Some? ==> ToRgb(n, f.value).Some? && InGamut(ToRgb(n, f.value).value)
  {
    NormalizeOf(color);
    match format
    case Hex =>
      assert DetectFormat(NormalizeHex(color)) == if SixUpperHex(NormalizeHex(color)[1..]) then Some(Hex) else None by {
        DetectNormalized(color, Hex);
      }
      if SixUpperHex(NormalizeHex(color)[1..]) {
        HexHub(color);
      }
    case Rgb =>
      assert DetectFormat(NormalizeRgb(color)) == Some(Rgb) by {
        DetectNormalized(color, Rgb);
      }
      RgbHub(color);
    case Hsl =>
      assert DetectFormat(NormalizeHsl(color)) == Some(Hsl) by {
        DetectNormalized(color, Hsl);
      }
      HslHub(color);
    case Cmyk =>
      assert DetectFormat(NormalizeCmyk(color)) == Some(Cmyk) by {
        DetectNormalized(color, Cmyk);
      }
      CmykHub(color);
  }

  // ---------------------------------------------------------------- the four written forms

  /** The hex form of a hub in gamut is canonical hex text that reads back as the hub. */
  lemma HexFormCanonical(c: RgbColor)
    requires InGamut(c)
    ensures var hex := RgbToHex(c);
            DetectFormat(hex) == Some(Hex) && NormalizeHex(hex) == hex && HexToRgb(hex) == Some(c)
  {
    RgbToHexShape(c);
    var body := HexDigitsOf(c);
    NormalizeHexOfSix(body);
    DetectNormalizedHex(RgbToHex(c));
    HexRoundTrip(c);
  }

  /** The rgb form of a hub in gamut is canonical rgb text that reads back as the hub. */
  lemma RgbFormCanonical(c: RgbColor)
    requires InGamut(c)
    ensures var rgb := RgbText(c);
            DetectFormat(rgb) == Some(Rgb) && NormalizeRgb(rgb) == rgb && ToRgb(rgb, Rgb) == Some(c)
  {
    var rgb := RgbText(c);
    var v: seq<nat> := [c.r, c.g, c.b];
    assert rgb == Render(v, RgbMarks);
    assert Search(rgb, RgbMarks) == Some(v) && DetectFormat(rgb) == Some(Rgb) by {
      RgbFieldsText(v);
    }
    ToRgbRgb(rgb);
    NormalizeRgbOfFields(v);
  }

  /** The hsl form of a hub in gamut is canonical hsl text. */
  lemma HslFormCanonical(c: RgbColor)
    requires InGamut(c)
    ensures HslDefined(c)
    ensures var hsl := HslText(RgbToHsl(c));
            DetectFormat(hsl) == Some(Hsl) && NormalizeHsl(hsl) == hsl
  {
    RgbToHslRanges(c);
    var h := RgbToHsl(c);
    var v: seq<nat> := [h.h, h.s, h.l];
    assert HslText(h) == Render(v, HslMarks);
    HslFieldsText(v);
    NormalizeHslOfFields(v);
  }

  /** The cmyk form of a hub in gamut is canonical cmyk text. */
  lemma CmykFormCanonical(c: RgbColor)
    requires InGamut(c)
    ensures var cmyk := CmykText(RgbToCmyk(c));
            DetectFormat(cmyk) == Some(Cmyk) && NormalizeCmyk(cmyk) == cmyk
  {
    var k := RgbToCmyk(c);
    var cmyk := CmykText(k);
    var v: seq<nat> := [k.c, k.m, k.y, k.k] by {
      RgbToCmykRanges(c);
    }
    assert v[0] <= 100 && v[1] <= 100 && v[2] <= 100 && v[3] <= 100 by {
      RgbToCmykRanges(c);
    }
    assert cmyk == Render(v, CmykMarks);
    assert Search(cmyk, CmykMarks) == Some(v) && DetectFormat(cmyk) == Some(Cmyk) by {
      CmykFieldsText(v);
    }
    NormalizeCmykOfFields(v);
  }

  /**
   * Every form `convertAllFormats` writes for a hub in gamut is text the page accepts unchanged in
   * its own field; the hex and rgb forms read back as the hub itself.
   */
  lemma ConvertedFormsCanonical(c: RgbColor)
    requires InGamut(c)
    ensures HslDefined(c)
    ensures var cv := FromRgb(c);
            && DetectFormat(cv.hex) == Some(Hex) && Normalize(cv.hex, Hex) == cv.hex
            && DetectFormat(cv.rgb) == Some(Rgb) && Normalize(cv.rgb, Rgb) == cv.rgb
            && DetectFormat(cv.hsl) == Some(Hsl) && Normalize(cv.hsl, Hsl) == cv.hsl
            && DetectFormat(cv.cmyk) == Some(Cmyk) && Normalize(cv.cmyk, Cmyk) == cv.cmyk
            && ToRgb(cv.hex, Hex) == Some(c) && ToRgb(cv.rgb, Rgb) == Some(c)
  {
    InGamutHslDefined(c);
    var hex, rgb, hsl, cmyk := RgbToHex(c), RgbText(c), HslText(RgbToHsl(c)), CmykText(RgbToCmyk(c));
    assert FromRgb(c) == ColorValues(hex, rgb, hsl, cmyk);
    NormalizeOf(hex);
    NormalizeOf(rgb);
    NormalizeOf(hsl);
    NormalizeOf(cmyk);
    assert DetectFormat(hex) == Some(Hex) && NormalizeHex(hex) == hex && ToRgb(hex, Hex) == Some(c) by {
      HexFormCanonical(c);
    }
    assert DetectFormat(rgb) == Some(Rgb) && NormalizeRgb(rgb) == rgb && ToRgb(rgb, Rgb) == Some(c) by {
      RgbFormCanonical(c);
    }
    assert DetectFormat(hsl) == Some(Hsl) && NormalizeHsl(hsl) == hsl by {
      HslFormCanonical(c);
    }
    assert DetectFormat(cmyk) == Some(Cmyk) && NormalizeCmyk(cmyk) == cmyk by {
      CmykFormCanonical(c);
    }
  }

  // ---------------------------------------------------------------- the page's default colour

  lemma DefaultHub()
    ensures HexToRgb("#FF5733") == Some(RgbColor(255, 87, 51))
  {
    var n := NormalizeHex("#FF5733");
    assert StripHash("#FF5733") == "FF5733";
    assert ToUpper("FF5733") == "FF5733";
    assert n[1..] == "FF5733";
    assert HexPair('F', 'F') == 255 && HexPair('5', '7') == 87 && HexPair('3', '3') == 51;
  }

  lemma DefaultHsl()
    ensures HslDefined(RgbColor(255, 87, 51)) && RgbToHsl(RgbColor(255, 87, 51)) == HslColor(11, 100, 60)
  {
    var c := RgbColor(255, 87, 51);
    assert MaxUnit(c) == 1.0 && MinUnit(c) == 51.0 / 255.0;
    assert Round(((87.0 / 255.0 - 51.0 / 255.0) / (1.0 - 51.0 / 255.0) + 0.0) / 6.0 * 360.0) == 11;
    assert Round((1.0 - 51.0 / 255.0) / (2.0 - 1.0 - 51.0 / 255.0) * 100.0) == 100;
    assert Round((1.0 + 51.0 / 255.0) / 2.0 * 100.0) == 60;
  }

  lemma DefaultCmyk()
    ensures RgbToCmyk(RgbColor(255, 87, 51)) == CmykColor(0, 66, 80, 0)
  {
    var c := RgbColor(255, 87, 51);
    assert MaxUnit(c) == 1.0;
    assert Round((1.0 - 87.0 / 255.0) * 100.0) == 66;
    assert Round((1.0 - 51.0 / 255.0) * 100.0) == 80;
  }

  /** The last field of a list. */
  lemma RenderLast(v: int, m: Option<char>)
    ensures Render([v], [m]) == IntToString(v) + MarkerText(m)
  {
  }

  /** A list of two or more fields: the first, its marker, `, ` and the rest. */
  lemma RenderFirst(values: seq<int>, markers: seq<Option<char>>)
    requires |values| == |markers| > 1
    ensures Render(values, markers) == IntToString(values[0]) + MarkerText(markers[0]) + ", " + Render(values[1..], markers[1..])
  {
  }

  lemma DefaultRgbText()
    ensures RgbText(RgbColor(255, 87, 51)) == "255, 87, 51"
  {
    var tail := Render([87, 51], [None, None]);
    assert tail == "87, 51" by {
      RenderFirst([87, 51], [None, None]);
      assert [87, 51][1..] == [51];
      RenderLast(51, None);
      assert IntToString(87) == "87" && IntToString(51) == "51";
    }
    assert RgbText(RgbColor(255, 87, 51)) == Render([255, 87, 51], RgbMarks);
    RenderFirst([255, 87, 51], RgbMarks);
    assert RgbMarks[1..] == [None, None] && [255, 87, 51][1..] == [87, 51];
    assert IntToString(255) == "255";
    assert Render([255, 87, 51], RgbMarks) == "255" + ", " + tail;
  }

  lemma DefaultSaturationText()
    ensures Render([100, 60], [Some('%'), Some('%')]) == "100%, 60%"
  {
    var pct := Some('%');
    RenderFirst([100, 60], [pct, pct]);
    assert [100, 60][1..] == [60];
    RenderLast(60, pct);
    assert IntToString(100) == "100" && IntToString(60) == "60";
  }

  lemma DefaultHslText()
    ensures HslText(HslColor(11, 100, 60)) == "11\U{00B0}, 100%, 60%"
  {
    var pct := Some('%');
    var tail := Render([100, 60], [pct, pct]);
    DefaultSaturationText();
    assert HslText(HslColor(11, 100, 60)) == Render([11, 100, 60], HslMarks);
    RenderFirst([11, 100, 60], HslMarks);
    assert HslMarks[1..] == [pct, pct] && [11, 100, 60][1..] == [100, 60];
    assert IntToString(11) == "11";
    assert Render([11, 100, 60], HslMarks) == "11\U{00B0}" + ", " + tail;
  }

  lemma DefaultInkText()
    ensures Render([66, 80, 0], [Some('%'), Some('%'), Some('%')]) == "66%, 80%, 0%"
  {
    var pct := Some('%');
    var tail := Render([80, 0], [pct, pct]);
    assert tail == "80%, 0%" by {
      RenderFirst([80, 0], [pct, pct]);
      assert [80, 0][1..] == [0];
      RenderLast(0, pct);
      assert IntToString(80) == "80" && IntToString(0) == "0";
    }
    RenderFirst([66, 80, 0], [pct, pct, pct]);
    assert [66, 80, 0][1..] == [80, 0];
    assert IntToString(66) == "66";
    assert Render([66, 80, 0], [pct, pct, pct]) == "66%" + ", " + tail;
  }

  lemma DefaultCmykText()
    ensures CmykText(CmykColor(0, 66, 80, 0)) == "0%, 66%, 80%, 0%"
  {
    var pct := Some('%');
    var tail := Render([66, 80, 0], [pct, pct, pct]);
    DefaultInkText();
    assert CmykText(CmykColor(0, 66, 80, 0)) == Render([0, 66, 80, 0], CmykMarks);
    RenderFirst([0, 66, 80, 0], CmykMarks);
    assert CmykMarks[1..] == [pct, pct, pct] && [0, 66, 80, 0][1..] == [66, 80, 0];
    assert IntToString(0) == "0";
    assert Render([0, 66, 80, 0], CmykMarks) == "0%" + ", " + tail;
  }

  lemma DefaultHexText()
    ensures RgbToHex(RgbColor(255, 87, 51)) == "#FF5733"
  {
    var c := RgbColor(255, 87, 51);
    RgbToHexShape(c);
    assert HexDigitsOf(c) == [UpperHexDigit(15), UpperHexDigit(15), UpperHexDigit(5), UpperHexDigit(7),
                              UpperHexDigit(3), UpperHexDigit(3)];
    assert UpperHexDigit(15) == 'F' && UpperHexDigit(5) == '5' && UpperHexDigit(7) == '7' && UpperHexDigit(3) == '3';
  }

  /**
   * The page starts from `#FF5733` and shows `255, 87, 51`, `11°, 100%, 60%` and `0%, 66%, 80%, 0%`:
   * exactly what `convertAllFormats` writes for it.
   */
  lemma DefaultConversion()
    ensures ConvertAllFormats("#FF5733", Hex)
         == Some(ColorValues("#FF5733", "255, 87, 51", "11\U{00B0}, 100%, 60%", "0%, 66%, 80%, 0%"))
  {
    var c := RgbColor(255, 87, 51);
    assert ToRgb("#FF5733", Hex) == Some(c) by {
      DefaultHub();
    }
    assert FromRgb(c) == ColorValues("#FF5733", "255, 87, 51", "11\U{00B0}, 100%, 60%", "0%, 66%, 80%, 0%") by {
      DefaultHsl();
      DefaultCmyk();
      DefaultRgbText();
      DefaultHslText();
      DefaultCmykText();
      DefaultHexText();
    }
  }
}
