/**
 * What the colour converter promises about its comma-separated text forms: the normalisers write a
 * field list that reads back as the clamped numbers, that the detector recognises as its own format,
 * and that normalising again leaves alone.
 */
module ColorText {
  import opened Options
  import opened Strings
  import opened Scanning
  import opened ColorConverter

  lemma MarksGood()
    ensures GoodMarkers(RgbMarks) && GoodMarkers(HslMarks) && GoodMarkers(CmykMarks)
  {
  }

  /** A field of zero with its marker. */
  lemma ZeroField(m: Option<char>)
    ensures Render([0], [m]) == "0" + MarkerText(m)
  {
    assert DecimalString(0) == "0";
  }

  /** A list of fields that starts with zero: `0`, its marker, `, ` and the rest. */
  lemma ZeroFirst(values: seq<int>, markers: seq<Option<char>>)
    requires |values| == |markers| > 1 && values[0] == 0
    ensures Render(values, markers) == "0" + MarkerText(markers[0]) + ", " + Render(values[1..], markers[1..])
  {
    assert DecimalString(0) == "0";
  }

  /** The fallback text of `normalizeRgb` is the triple of zeros. */
  lemma RgbZeroText()
    ensures Render([0, 0, 0], RgbMarks) == "0, 0, 0"
  {
    ZeroFirst([0, 0, 0], RgbMarks);
    ZeroFirst([0, 0], [None, None]);
    ZeroField(None);
    assert [0, 0, 0][1..] == [0, 0] && [0, 0][1..] == [0];
    assert RgbMarks[1..] == [None, None];
  }

  /** The fallback text of `normalizeHsl` is the triple of zeros. */
  lemma HslZeroText()
    ensures Render([0, 0, 0], HslMarks) == "0\U{00B0}, 0%, 0%"
  {
    var pct := Some('%');
    ZeroFirst([0, 0, 0], HslMarks);
    ZeroFirst([0, 0], [pct, pct]);
    ZeroField(pct);
    assert [0, 0, 0][1..] == [0, 0] && [0, 0][1..] == [0];
    assert HslMarks[1..] == [pct, pct];
  }

  /** The fallback text of `normalizeCmyk` is the quadruple of zeros. */
  lemma CmykZeroText()
    ensures Render([0, 0, 0, 0], CmykMarks) == "0%, 0%, 0%, 0%"
  {
    var pct := Some('%');
    ZeroFirst([0, 0, 0, 0], CmykMarks);
    ZeroFirst([0, 0, 0], [pct, pct, pct]);
    ZeroFirst([0, 0], [pct, pct]);
    ZeroField(pct);
    assert [0, 0, 0, 0][1..] == [0, 0, 0] && [0, 0, 0][1..] == [0, 0] && [0, 0][1..] == [0];
    assert CmykMarks[1..] == [pct, pct, pct];
  }

  /** A list of three or more fields is neither blank nor hex: it starts with a digit and is too long. */
  lemma FieldsNotHex(values: seq<nat>, markers: seq<Option<char>>)
    requires |values| == |markers| >= 3
    ensures Trim(Render(values, markers)) != [] && !HexPattern(Render(values, markers))
  {
    var n := Render(values, markers);
    RenderStartsWithDigit(values, markers);
    RenderLength(values, markers);
    NotBlank(n, 0);
  }

  /**
   * A field list whose first field carries the marker `c` cannot match a pattern whose first field
   * takes a different marker, or none.
   */
  lemma MarkedFirstField(values: seq<nat>, markers: seq<Option<char>>, other: seq<Option<char>>)
    requires |values| == |markers| > 1 && |other| > 1
    requires markers[0].Some? && markers[0] != other[0]
    requires GoodMarkers(markers)
    ensures !MatchesWhole(Render(values, markers), other)
  {
    var n := Render(values, markers);
    var after := MarkerText(markers[0]) + ", " + (Render(values[1..], markers[1..]) + "");
    RenderCons(values, markers, "");
    assert n + "" == n;
    assert after[0] == markers[0].value;
    ScanStopsAfterNumber(values[0], after, other);
    RenderStartsWithDigit(values, markers);
    SkipSpacesNone(n);
  }

  /** An rgb field list reads back as its numbers and is recognised as rgb. */
  lemma RgbFieldsText(v: seq<nat>)
    requires |v| == 3
    ensures Search(Render(v, RgbMarks), RgbMarks) == Some(v)
    ensures DetectFormat(Render(v, RgbMarks)) == Some(Rgb)
  {
    MarksGood();
    SearchRender(v, RgbMarks);
    MatchesWholeRender(v, RgbMarks);
    FieldsNotHex(v, RgbMarks);
  }

  /** An hsl field list reads back as its numbers and is recognised as hsl, not as rgb. */
  lemma HslFieldsText(v: seq<nat>)
    requires |v| == 3
    ensures Search(Render(v, HslMarks), HslMarks) == Some(v)
    ensures DetectFormat(Render(v, HslMarks)) == Some(Hsl)
  {
    MarksGood();
    SearchRender(v, HslMarks);
    MatchesWholeRender(v, HslMarks);
    FieldsNotHex(v, HslMarks);
    MarkedFirstField(v, HslMarks, RgbMarks);
  }

  /** A cmyk field list reads back as its numbers and is recognised as cmyk, not as rgb or hsl. */
  lemma CmykFieldsText(v: seq<nat>)
    requires |v| == 4
    ensures Search(Render(v, CmykMarks), CmykMarks) == Some(v)
    ensures DetectFormat(Render(v, CmykMarks)) == Some(Cmyk)
  {
    MarksGood();
    SearchRender(v, CmykMarks);
    MatchesWholeRender(v, CmykMarks);
    FieldsNotHex(v, CmykMarks);
    MarkedFirstField(v, CmykMarks, RgbMarks);
    MarkedFirstField(v, CmykMarks, HslMarks);
  }

  // ---------------------------------------------------------------- the normalisers

  /**
   * `normalizeRgb` writes the first triple of the text, each channel clamped to [0, 255], or zeros
   * when the text holds none; reading the result back gives those numbers, and it is rgb text.
   */
  lemma NormalizeRgbFields(rgb: string)
    ensures var v := match Search(rgb, RgbMarks)
                     case None => [0, 0, 0]
                     case Some(w) => [Clamp(w[0], 0, 255), Clamp(w[1], 0, 255), Clamp(w[2], 0, 255)];
            var n := NormalizeRgb(rgb);
            n == Render(v, RgbMarks) && Search(n, RgbMarks) == Some(v) && DetectFormat(n) == Some(Rgb)
  {
    var v: seq<nat> := match Search(rgb, RgbMarks) case None => [0, 0, 0] case Some(w) => [Clamp(w[0], 0, 255), Clamp(w[1], 0, 255), Clamp(w[2], 0, 255)];
    assert NormalizeRgb(rgb) == Render(v, RgbMarks) by {
      RgbZeroText();
    }
    RgbFieldsText(v);
  }

  /** `normalizeHsl` writes the first triple clamped to [0, 360], [0, 100], [0, 100], or zeros. */
  lemma NormalizeHslFields(hsl: string)
    ensures var v := match Search(hsl, HslMarks)
                     case None => [0, 0, 0]
                     case Some(w) => [Clamp(w[0], 0, 360), Clamp(w[1], 0, 100), Clamp(w[2], 0, 100)];
            var n := NormalizeHsl(hsl);
            n == Render(v, HslMarks) && Search(n, HslMarks) == Some(v) && DetectFormat(n) == Some(Hsl)
  {
    var v: seq<nat> := match Search(hsl, HslMarks) case None => [0, 0, 0] case Some(w) => [Clamp(w[0], 0, 360), Clamp(w[1], 0, 100), Clamp(w[2], 0, 100)];
    assert NormalizeHsl(hsl) == Render(v, HslMarks) by {
      HslZeroText();
    }
    HslFieldsText(v);
  }

  /** `normalizeCmyk` writes the first quadruple, each component clamped to [0, 100], or zeros. */
  lemma NormalizeCmykFields(cmyk: string)
    ensures var v := match Search(cmyk, CmykMarks)
                     case None => [0, 0, 0, 0]
                     case Some(w) =>
                       [Clamp(w[0], 0, 100), Clamp(w[1], 0, 100), Clamp(w[2], 0, 100), Clamp(w[3], 0, 100)];
            var n := NormalizeCmyk(cmyk);
            n == Render(v, CmykMarks) && Search(n, CmykMarks) == Some(v) && DetectFormat(n) == Some(Cmyk)
  {
    var v: seq<nat> := match Search(cmyk, CmykMarks) case None => [0, 0, 0, 0] case Some(w) => [Clamp(w[0], 0, 100), Clamp(w[1], 0, 100), Clamp(w[2], 0, 100), Clamp(w[3], 0, 100)];
    assert NormalizeCmyk(cmyk) == Render(v, CmykMarks) by {
      CmykZeroText();
    }
    CmykFieldsText(v);
  }

  // ---------------------------------------------------------------- detection order

  /** Hex text holds no comma. */
  lemma HexNoComma(s: string)
    requires HexPattern(s)
    ensures ',' !in s
  {
  }

  /** Text that matches the whole rgb pattern is not blank and holds a comma. */
  lemma TripleShape(s: string)
    requires MatchesWhole(s, RgbMarks)
    ensures Trim(s) != [] && ',' in s
  {
    var u := SkipSpaces(s);
    assert ScanFields(u, RgbMarks).Some?;
    ScanFieldsComma(u, RgbMarks);
    SkipSpacesKeeps(s, ',');
    assert u != [] && !IsSpace(u[0]);
    assert s[|s| - |u|] == u[0] by {
      SkipSpacesSuffix(s);
    }
    NotBlank(s, |s| - |u|);
  }

  /** A bare triple of integers is recognised as rgb. */
  lemma TripleIsRgb(s: string)
    requires MatchesWhole(s, RgbMarks)
    ensures DetectFormat(s) == Some(Rgb)
  {
    TripleShape(s);
    if HexPattern(s) {
      HexNoComma(s);
    }
  }

  /**
   * Every bare triple of integers also matches the hsl pattern, whose markers are optional, so only
   * the order in which `detectFormat` tries the patterns makes it rgb.
   */
  lemma TripleAlsoHsl(s: string)
    requires MatchesWhole(s, RgbMarks)
    ensures MatchesWhole(s, HslMarks)
  {
    assert RgbMarks == Unmarked(3);
    MarksGood();
    MatchesWholeAnyMarkers(s, HslMarks);
  }
}
