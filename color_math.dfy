/**
 * What the colour converter promises about its arithmetic: the ranges of the hsl and cmyk components,
 * the gray, black and white cases, the lightness formula, and hue 360 naming the same colour as hue 0.
 */
module ColorMath {
  import opened ColorConverter

  // ---------------------------------------------------------------- helpers on reals

  lemma RoundWithin(x: real, lo: int, hi: int)
    requires lo as real <= x <= hi as real
    ensures lo <= Round(x) <= hi
  {
  }

  lemma DivUnitInterval(a: real, b: real)
    requires 0.0 <= a <= b && b > 0.0
    ensures 0.0 <= a / b <= 1.0
  {
    assert a / b * b == a;
  }

  lemma DivSigned(a: real, d: real)
    requires d > 0.0 && -d <= a <= d
    ensures -1.0 <= a / d <= 1.0
    ensures a >= 0.0 ==> a / d >= 0.0
    ensures a < 0.0 ==> a / d < 0.0
  {
    assert a / d * d == a;
  }

  lemma MulUnit(a: real, u: real)
    requires a >= 0.0 && 0.0 <= u <= 1.0
    ensures 0.0 <= a * u <= a
  {
  }

  /** The largest and smallest channel over 255, for channels in [0, 255]. */
  lemma UnitBounds(c: RgbColor)
    requires InGamut(c)
    ensures var r, g, b := Unit(c.r), Unit(c.g), Unit(c.b);
            var mx, mn := MaxUnit(c), MinUnit(c);
            0.0 <= mn <= r <= mx <= 1.0 && mn <= g <= mx && mn <= b <= mx
            && (mx == r || mx == g || mx == b) && (mx == mn <==> c.r == c.g == c.b)
  {
  }

  /** Channels in [0, 255] never make `rgbToHsl` divide by zero. */
  lemma InGamutHslDefined(c: RgbColor)
    requires InGamut(c)
    ensures HslDefined(c)
  {
    UnitBounds(c);
  }

  // ---------------------------------------------------------------- rgbToHsl

  /** The hue sector `(g - b) / d + ...` before it is divided by 6 lies in [0, 6]. */
  lemma SectorRange(c: RgbColor)
    requires InGamut(c) && MaxUnit(c) != MinUnit(c)
    ensures var r, g, b := Unit(c.r), Unit(c.g), Unit(c.b);
            var mx, d := MaxUnit(c), MaxUnit(c) - MinUnit(c);
            var sector :=
              if mx == r then (g - b) / d + (if g < b then 6.0 else 0.0)
              else if mx == g then (b - r) / d + 2.0
              else (r - g) / d + 4.0;
            0.0 <= sector <= 6.0
  {
    UnitBounds(c);
    var r, g, b := Unit(c.r), Unit(c.g), Unit(c.b);
    var d := MaxUnit(c) - MinUnit(c);
    DivSigned(g - b, d);
    DivSigned(b - r, d);
    DivSigned(r - g, d);
  }

  /** The saturation before rounding lies in [0, 1]. */
  lemma SaturationRange(c: RgbColor)
    requires InGamut(c) && MaxUnit(c) != MinUnit(c)
    ensures var mx, mn := MaxUnit(c), MinUnit(c);
            var d := mx - mn;
            var s := if (mx + mn) / 2.0 > 0.5 then d / (2.0 - mx - mn) else d / (mx + mn);
            0.0 <= s <= 1.0
  {
    UnitBounds(c);
    var mx, mn := MaxUnit(c), MinUnit(c);
    if (mx + mn) / 2.0 > 0.5 {
      DivUnitInterval(mx - mn, 2.0 - mx - mn);
    } else {
      DivUnitInterval(mx - mn, mx + mn);
    }
  }

  /** For channels in [0, 255], the hue lies in [0, 360] and saturation and lightness in [0, 100]. */
  lemma RgbToHslRanges(c: RgbColor)
    requires InGamut(c)
    ensures HslDefined(c)
    ensures var hsl := RgbToHsl(c);
            0 <= hsl.h <= 360 && 0 <= hsl.s <= 100 && 0 <= hsl.l <= 100
  {
    InGamutHslDefined(c);
    UnitBounds(c);
    var mx, mn := MaxUnit(c), MinUnit(c);
    RoundWithin((mx + mn) / 2.0 * 100.0, 0, 100);
    if mx != mn {
      SectorRange(c);
      SaturationRange(c);
      var r, g, b := Unit(c.r), Unit(c.g), Unit(c.b);
      var d := mx - mn;
      var sector :=
        if mx == r then (g - b) / d + (if g < b then 6.0 else 0.0)
        else if mx == g then (b - r) / d + 2.0
        else (r - g) / d + 4.0;
      RoundWithin(sector / 6.0 * 360.0, 0, 360);
      var s := if (mx + mn) / 2.0 > 0.5 then d / (2.0 - mx - mn) else d / (mx + mn);
      RoundWithin(s * 100.0, 0, 100);
    }
  }

  /** A gray (all channels equal) has hue 0 and saturation 0. */
  lemma RgbToHslGray(c: RgbColor)
    requires InGamut(c) && c.r == c.g == c.b
    ensures HslDefined(c) && RgbToHsl(c).h == 0 && RgbToHsl(c).s == 0
  {
    InGamutHslDefined(c);
    UnitBounds(c);
  }

  lemma UnitMax(c: RgbColor)
    ensures MaxUnit(c) == Unit(Max(Max(c.r, c.g), c.b)) && MinUnit(c) == Unit(Min(Min(c.r, c.g), c.b))
  {
  }

  /** The lightness is `round(100 * (max + min) / (2 * 255))` of the largest and smallest channel. */
  lemma RgbToHslLightness(c: RgbColor)
    requires InGamut(c)
    ensures HslDefined(c)
    ensures RgbToHsl(c).l == Round((Max(Max(c.r, c.g), c.b) + Min(Min(c.r, c.g), c.b)) as real * 100.0 / 510.0)
  {
    InGamutHslDefined(c);
    UnitMax(c);
    var hi, lo := Max(Max(c.r, c.g), c.b), Min(Min(c.r, c.g), c.b);
    assert (Unit(hi) + Unit(lo)) / 2.0 * 100.0 == (hi + lo) as real * 100.0 / 510.0;
  }

  /** The hue reaches 360, not just 359: a red with a trace of blue rounds up to it. */
  lemma HueReaches360()
    ensures HslDefined(RgbColor(255, 0, 1)) && RgbToHsl(RgbColor(255, 0, 1)).h == 360
  {
    var c := RgbColor(255, 0, 1);
    InGamutHslDefined(c);
    assert MaxUnit(c) == 1.0 && MinUnit(c) == 0.0;
    assert (0.0 - 1.0 / 255.0) / 1.0 + 6.0 == 1529.0 / 255.0;
    assert 1529.0 / 255.0 / 6.0 * 360.0 == 359.0 + 195.0 / 255.0;
  }

  // ---------------------------------------------------------------- hslToRgb

  /** A zero saturation gives three equal channels, each `round(l * 255 / 100)`. */
  lemma HslToRgbGray(h: int, l: int)
    ensures var c := HslToRgb(HslColor(h, 0, l));
            c.r == c.g == c.b == Round(l as real * 255.0 / 100.0)
  {
    assert l as real / 100.0 * 255.0 == l as real * 255.0 / 100.0;
  }

  lemma Between(p: real, q: real, u: real)
    requires p <= q && 0.0 <= u <= 1.0
    ensures p <= p + (q - p) * u <= q
  {
    MulUnit(q - p, u);
    var m := (q - p) * u;
    assert 0.0 <= m <= q - p;
  }

  /** The rising edge of the ramp, on [0, 1/6). */
  lemma Rising(p: real, q: real, t: real)
    requires p <= q && 0.0 <= t < 1.0 / 6.0
    ensures p <= HueRamp(p, q, t) <= q
  {
    var u := 6.0 * t;
    Between(p, q, u);
    assert (q - p) * 6.0 * t == (q - p) * u;
  }

  /** The falling edge of the ramp, on [1/2, 2/3). */
  lemma Falling(p: real, q: real, t: real)
    requires p <= q && 1.0 / 2.0 <= t < 2.0 / 3.0
    ensures p <= HueRamp(p, q, t) <= q
  {
    var u := (2.0 / 3.0 - t) * 6.0;
    Between(p, q, u);
    assert (q - p) * (2.0 / 3.0 - t) * 6.0 == (q - p) * u;
  }

  /** The ramp of `hue2rgb` stays between `p` and `q` on [0, 1]. */
  lemma HueRampBetween(p: real, q: real, t: real)
    requires p <= q && 0.0 <= t <= 1.0
    ensures p <= HueRamp(p, q, t) <= q
  {
    if t < 1.0 / 6.0 {
      Rising(p, q, t);
    } else if 1.0 / 2.0 <= t < 2.0 / 3.0 {
      Falling(p, q, t);
    }
  }

  /** `hue2rgb` stays between `p` and `q` for every offset the three channels use. */
  lemma Hue2RgbBetween(p: real, q: real, t: real)
    requires p <= q && -1.0 <= t <= 2.0
    ensures p <= Hue2Rgb(p, q, t) <= q
  {
    HueRampBetween(p, q, WrapHue(t));
  }

  /** The two intermediate values of a chromatic colour satisfy 0 <= p <= q <= 1. */
  lemma PqRange(s: real, l: real)
    requires 0.0 <= s <= 1.0 && 0.0 <= l <= 1.0
    ensures 0.0 <= 2.0 * l - UpperQ(s, l) <= UpperQ(s, l) <= 1.0
  {
    if l < 0.5 {
      MulUnit(l, s);
      var m := l * s;
      assert 0.0 <= m <= l;
      assert l * (1.0 + s) == l + m;
    } else {
      var a := 1.0 - l;
      MulUnit(a, s);
      var m := a * s;
      assert 0.0 <= m <= a;
      assert l + s - l * s == l + m;
    }
  }

  /** One channel of a chromatic colour, rounded, lies in [0, 255]. */
  lemma HueChannelRange(p: real, q: real, t: real)
    requires 0.0 <= p <= q <= 1.0 && -1.0 <= t <= 2.0
    ensures 0 <= Round(Hue2Rgb(p, q, t) * 255.0) <= 255
  {
    Hue2RgbBetween(p, q, t);
    RoundWithin(Hue2Rgb(p, q, t) * 255.0, 0, 255);
  }

  lemma HueChannelsRange(p: real, q: real, h: real)
    requires 0.0 <= p <= q <= 1.0 && 0.0 <= h <= 1.0
    ensures InGamut(HueChannels(p, q, h))
  {
    HueChannelRange(p, q, h + 1.0 / 3.0);
    HueChannelRange(p, q, h);
    HueChannelRange(p, q, h - 1.0 / 3.0);
  }

  /** For hue in [0, 360] and saturation and lightness in [0, 100], every channel lies in [0, 255]. */
  lemma HslToRgbRanges(hsl: HslColor)
    requires 0 <= hsl.h <= 360 && 0 <= hsl.s <= 100 && 0 <= hsl.l <= 100
    ensures InGamut(HslToRgb(hsl))
  {
    var h, s, l := hsl.h as real / 360.0, hsl.s as real / 100.0, hsl.l as real / 100.0;
    if s == 0.0 {
      RoundWithin(l * 255.0, 0, 255);
    } else {
      PqRange(s, l);
      HueChannelsRange(2.0 * l - UpperQ(s, l), UpperQ(s, l), h);
    }
  }

  /** A whole turn of hue gives the same three channels. */
  lemma HueChannelsTurn(p: real, q: real)
    ensures HueChannels(p, q, 1.0) == HueChannels(p, q, 0.0)
  {
    assert WrapHue(1.0 + 1.0 / 3.0) == WrapHue(0.0 + 1.0 / 3.0);
    assert WrapHue(1.0 - 1.0 / 3.0) == WrapHue(0.0 - 1.0 / 3.0);
    assert HueRamp(p, q, WrapHue(1.0)) == p == HueRamp(p, q, WrapHue(0.0));
  }

  /** Hue 360 and hue 0 name the same colour. */
  lemma HslHue360(s: int, l: int)
    ensures HslToRgb(HslColor(360, s, l)) == HslToRgb(HslColor(0, s, l))
  {
    var sr, lr := s as real / 100.0, l as real / 100.0;
    var q := UpperQ(sr, lr);
    HueChannelsTurn(2.0 * lr - q, q);
    assert 360 as real / 360.0 == 1.0 && 0 as real / 360.0 == 0.0;
  }

  // ---------------------------------------------------------------- cmyk

  /** Black is exactly no ink but full key. */
  lemma RgbToCmykBlack()
    ensures RgbToCmyk(RgbColor(0, 0, 0)) == CmykColor(0, 0, 0, 100)
  {
  }

  /** One ink component of a colour that is not black, for a channel `x` below the largest `mx`. */
  lemma InkRange(x: real, mx: real)
    requires 0.0 <= x <= mx <= 1.0 && mx > 0.0
    ensures var k := 1.0 - mx;
            0 <= Round((1.0 - x - k) / (1.0 - k) * 100.0) <= 100
            && (x == mx ==> Round((1.0 - x - k) / (1.0 - k) * 100.0) == 0)
  {
    var k := 1.0 - mx;
    assert 1.0 - x - k == mx - x && 1.0 - k == mx;
    DivUnitInterval(mx - x, mx);
    RoundWithin((mx - x) / mx * 100.0, 0, 100);
  }

  /**
   * For channels in [0, 255] every component lies in [0, 100], and the component of the largest
   * channel is 0.
   */
  lemma RgbToCmykRanges(c: RgbColor)
    requires InGamut(c)
    ensures var k := RgbToCmyk(c);
            0 <= k.c <= 100 && 0 <= k.m <= 100 && 0 <= k.y <= 100 && 0 <= k.k <= 100
            && (c.r >= c.g && c.r >= c.b ==> k.c == 0)
            && (c.g >= c.r && c.g >= c.b ==> k.m == 0)
            && (c.b >= c.r && c.b >= c.g ==> k.y == 0)
  {
    UnitBounds(c);
    UnitMax(c);
    var mx := MaxUnit(c);
    if mx != 0.0 {
      InkRange(Unit(c.r), mx);
      InkRange(Unit(c.g), mx);
      InkRange(Unit(c.b), mx);
      RoundWithin((1.0 - mx) * 100.0, 0, 100);
    }
  }

  /** A cmyk channel for components in [0, 100] lies in [0, 255]. */
  lemma CmykChannelRange(x: int, k: int)
    requires 0 <= x <= 100 && 0 <= k <= 100
    ensures 0 <= CmykChannel(x, k) <= 255
  {
    var xr, kr := x as real / 100.0, k as real / 100.0;
    MulUnit(1.0 - kr, xr);
    assert xr * (1.0 - kr) == (1.0 - kr) * xr;
    RoundWithin(255.0 * (1.0 - MinR(1.0, xr * (1.0 - kr) + kr)), 0, 255);
  }

  /** For components in [0, 100] every channel lies in [0, 255]. */
  lemma CmykToRgbRanges(cmyk: CmykColor)
    requires 0 <= cmyk.c <= 100 && 0 <= cmyk.m <= 100 && 0 <= cmyk.y <= 100 && 0 <= cmyk.k <= 100
    ensures InGamut(CmykToRgb(cmyk))
  {
    CmykChannelRange(cmyk.c, cmyk.k);
    CmykChannelRange(cmyk.m, cmyk.k);
    CmykChannelRange(cmyk.y, cmyk.k);
  }

  /** Full key is black whatever the other components say; no ink at all is white. */
  lemma CmykToRgbBlackWhite(c: int, m: int, y: int)
    ensures CmykToRgb(CmykColor(c, m, y, 100)) == RgbColor(0, 0, 0)
    ensures CmykToRgb(CmykColor(0, 0, 0, 0)) == RgbColor(255, 255, 255)
  {
  }
}
