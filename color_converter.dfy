/**
 * The colour-conversion engine of the colour converter page: it recognises a colour written as hex,
 * rgb, hsl or cmyk text, rewrites such text into a canonical clamped form, converts between the
 * three numeric models, and renders all four text forms from an RGB hub.
 *
 * JavaScript's double arithmetic on `channel / 255` is modelled on exact rationals (`real`), and
 * `Math.round` as `Round`.
 */
module ColorConverter {
  import opened Options
  import opened Strings
  import opened Scanning

  datatype ColorFormat = Hex | Rgb | Hsl | Cmyk

  /** The four text forms shown side by side on the page. */
  datatype ColorValues = ColorValues(hex: string, rgb: string, hsl: string, cmyk: string)

  datatype RgbColor = RgbColor(r: int, g: int, b: int)
  datatype HslColor = HslColor(h: int, s: int, l: int)
  datatype CmykColor = CmykColor(c: int, m: int, y: int, k: int)

  const Degree: char := '\U{00B0}'

  /** The field markers of the three comma-separated forms: none for rgb, `°%%` for hsl, `%%%%` for cmyk. */
  const RgbMarks: seq<Option<char>> := [None, None, None]
  const HslMarks: seq<Option<char>> := [Some(Degree), Some('%'), Some('%')]
  const CmykMarks: seq<Option<char>> := [Some('%'), Some('%'), Some('%'), Some('%')]

  // ---------------------------------------------------------------- arithmetic

  /** `Math.round`: the nearest integer, halves rounded up. */
  function Round(x: real): (n: int)
    ensures n as real - 0.5 <= x < n as real + 0.5
  {
    (x + 0.5).Floor
  }

  function Min(a: int, b: int): int { if a <= b then a else b }
  function Max(a: int, b: int): int { if a >= b then a else b }

  /** `Math.max(lo, Math.min(hi, x))`. */
  function Clamp(x: int, lo: int, hi: int): (r: int)
    requires lo <= hi
    ensures lo <= r <= hi
    ensures lo <= x <= hi ==> r == x
  {
    Max(lo, Min(hi, x))
  }

  function MinR(a: real, b: real): real { if a <= b then a else b }
  function MaxR(a: real, b: real): real { if a >= b then a else b }

  /** Channels a colour picker can produce: each in [0, 255]. */
  predicate InGamut(c: RgbColor) {
    0 <= c.r <= 255 && 0 <= c.g <= 255 && 0 <= c.b <= 255
  }

  /** `channel / 255`. */
  function Unit(x: int): real { x as real / 255.0 }

  // ---------------------------------------------------------------- detectFormat

  /** `[0-9A-Fa-f]{3}|[0-9A-Fa-f]{6}`. */
  predicate ShortOrLongHex(body: string) {
    (|body| == 3 || |body| == 6) && forall i | 0 <= i < |body| :: IsHexDigit(body[i])
  }

  /** `/^#?([0-9A-Fa-f]{3}|[0-9A-Fa-f]{6})$/`. */
  predicate HexPattern(s: string) {
    ShortOrLongHex(if s != [] && s[0] == '#' then s[1..] else s)
  }

  /**
   * The format a piece of text is written in, trying hex, rgb, hsl and cmyk in that order; `None`
   * for blank or unrecognised text.
   */
  function DetectFormat(color: string): (r: Option<ColorFormat>)
    ensures r == Some(Hex) <==> Trim(color) != [] && HexPattern(color)
    ensures r.Some? ==> Trim(color) != []
  {
    if Trim(color) == [] then None
    else if HexPattern(color) then Some(Hex)
    else if MatchesWhole(color, RgbMarks) then Some(Rgb)
    else if MatchesWhole(color, HslMarks) then Some(Hsl)
    else if MatchesWhole(color, CmykMarks) then Some(Cmyk)
    else None
  }

  // ---------------------------------------------------------------- normalisers

  /** `s.split("").map((c) => c + c).join("")`. */
  function DoubleEach(s: string): (r: string)
    ensures |r| == 2 * |s|
    ensures forall i | 0 <= i < |s| :: r[2 * i] == s[i] && r[2 * i + 1] == s[i]
  {
    if s == [] then [] else [s[0], s[0]] + DoubleEach(s[1..])
  }

  /** `s.replace(/^#/, "")`: one leading `#` removed. */
  function StripHash(s: string): (r: string)
    ensures s != [] && s[0] == '#' ==> r == s[1..]
    ensures (s == [] || s[0] != '#') ==> r == s
  {
    if s != [] && s[0] == '#' then s[1..] else s
  }

  /** Upper-cased, a three-digit form expanded to six digits, behind a single `#`. */
  function NormalizeHex(hex: string): string {
    var upper := ToUpper(StripHash(hex));
    "#" + (if |upper| == 3 then DoubleEach(upper) else upper)
  }

  /** The first rgb triple in the text, each channel clamped to [0, 255]; `0, 0, 0` when there is none. */
  function NormalizeRgb(rgb: string): string {
    match Search(rgb, RgbMarks)
    case None => "0, 0, 0"
    case Some(v) => Render([Clamp(v[0], 0, 255), Clamp(v[1], 0, 255), Clamp(v[2], 0, 255)], RgbMarks)
  }

  /** The first hsl triple in the text, hue clamped to [0, 360] and the rest to [0, 100]. */
  function NormalizeHsl(hsl: string): string {
    match Search(hsl, HslMarks)
    case None => "0\U{00B0}, 0%, 0%"
    case Some(v) => Render([Clamp(v[0], 0, 360), Clamp(v[1], 0, 100), Clamp(v[2], 0, 100)], HslMarks)
  }

  /** The first cmyk quadruple in the text, each component clamped to [0, 100]. */
  function NormalizeCmyk(cmyk: string): string {
    match Search(cmyk, CmykMarks)
    case None => "0%, 0%, 0%, 0%"
    case Some(v) =>
      Render([Clamp(v[0], 0, 100), Clamp(v[1], 0, 100), Clamp(v[2], 0, 100), Clamp(v[3], 0, 100)], CmykMarks)
  }

  /** The normaliser the page applies to text typed into the field of `format`. */
  function Normalize(color: string, format: ColorFormat): string {
    match format
    case Hex => NormalizeHex(color)
    case Rgb => NormalizeRgb(color)
    case Hsl => NormalizeHsl(color)
    case Cmyk => NormalizeCmyk(color)
  }

  // ---------------------------------------------------------------- hex

  /** `/^[0-9A-F]{6}$/`. */
  predicate SixUpperHex(s: string) {
    |s| == 6 && forall i | 0 <= i < 6 :: IsUpperHexDigit(s[i])
  }

  /** `parseInt(s, 16)` of two hexadecimal digits. */
  function HexPair(hi: char, lo: char): (n: nat)
    requires IsHexDigit(hi) && IsHexDigit(lo)
    ensures n < 256
  {
    16 * HexValue(hi) + HexValue(lo)
  }

  /** The channels of a hex colour; `None` unless its normal form is six hexadecimal digits. */
  function HexToRgb(hex: string): (r: Option<RgbColor>)
    ensures r.Some? <==> SixUpperHex(NormalizeHex(hex)[1..])
    ensures r.Some? ==> 0 <= r.value.r < 256 && 0 <= r.value.g < 256 && 0 <= r.value.b < 256
  {
    var body := NormalizeHex(hex)[1..];
    if SixUpperHex(body) then
      Some(RgbColor(HexPair(body[0], body[1]), HexPair(body[2], body[3]), HexPair(body[4], body[5])))
    else None
  }

  /** `n.toString(16)`: the shortest lower-case hexadecimal numeral. */
  function HexNumeral(n: nat): (r: string)
    ensures |r| > 0
    decreases n
  {
    if n < 16 then [LowerHexDigit(n)] else HexNumeral(n / 16) + [LowerHexDigit(n % 16)]
  }

  /** `s.padStart(width, c)`. */
  function PadStart(s: string, width: nat, c: char): (r: string)
    ensures |r| == if |s| >= width then |s| else width
    decreases width - |s|
  {
    if |s| >= width then s else PadStart([c] + s, width, c)
  }

  /** One channel, clamped to [0, 255], as a two-digit numeral. */
  function HexByte(x: int): string {
    PadStart(HexNumeral(Clamp(x, 0, 255)), 2, '0')
  }

  /** `#RRGGBB` in upper case, each channel clamped to [0, 255] first. */
  function RgbToHex(c: RgbColor): string {
    "#" + ToUpper(HexByte(c.r) + HexByte(c.g) + HexByte(c.b))
  }

  // ---------------------------------------------------------------- rgb and hsl

  /** `Math.max(r, g, b)` and `Math.min(r, g, b)` of the channels over 255. */
  function MaxUnit(c: RgbColor): real { MaxR(MaxR(Unit(c.r), Unit(c.g)), Unit(c.b)) }
  function MinUnit(c: RgbColor): real { MinR(MinR(Unit(c.r), Unit(c.g)), Unit(c.b)) }

  /**
   * The saturation of a chromatic colour divides by `2 - max - min` or by `max + min`; this says the
   * divisor it takes is not zero, so the result is a number and not `Infinity` or `NaN`.
   */
  predicate HslDefined(c: RgbColor) {
    var mx, mn := MaxUnit(c), MinUnit(c);
    mx != mn ==> if (mx + mn) / 2.0 > 0.5 then 2.0 - mx - mn != 0.0 else mx + mn != 0.0
  }

  function RgbToHsl(c: RgbColor): HslColor
    requires HslDefined(c)
  {
    var r, g, b := Unit(c.r), Unit(c.g), Unit(c.b);
    var mx, mn := MaxUnit(c), MinUnit(c);
    var l := (mx + mn) / 2.0;
    if mx == mn then HslColor(0, 0, Round(l * 100.0))
    else
      var d := mx - mn;
      var s := if l > 0.5 then d / (2.0 - mx - mn) else d / (mx + mn);
      var sector :=
        if mx == r then (g - b) / d + (if g < b then 6.0 else 0.0)
        else if mx == g then (b - r) / d + 2.0
        else (r - g) / d + 4.0;
      HslColor(Round(sector / 6.0 * 360.0), Round(s * 100.0), Round(l * 100.0))
  }

  /** The first two steps of the `hue2rgb` helper: an offset in [-1, 2] is brought into [0, 1]. */
  function WrapHue(t: real): real {
    var t1 := if t < 0.0 then t + 1.0 else t;
    if t1 > 1.0 then t1 - 1.0 else t1
  }

  /** The rest of `hue2rgb`: rising from `p` to `q`, flat at `q`, falling back to `p`, flat at `p`. */
  function HueRamp(p: real, q: real, t: real): real {
    if t < 1.0 / 6.0 then p + (q - p) * 6.0 * t
    else if t < 1.0 / 2.0 then q
    else if t < 2.0 / 3.0 then p + (q - p) * (2.0 / 3.0 - t) * 6.0
    else p
  }

  /** The `hue2rgb` helper: one channel of a chromatic colour from the hue offset `t`. */
  function Hue2Rgb(p: real, q: real, t: real): real {
    HueRamp(p, q, WrapHue(t))
  }

  /** The three channels of a chromatic colour: red a third of a turn ahead of green, blue a third behind. */
  function HueChannels(p: real, q: real, h: real): RgbColor {
    RgbColor(Round(Hue2Rgb(p, q, h + 1.0 / 3.0) * 255.0),
             Round(Hue2Rgb(p, q, h) * 255.0),
             Round(Hue2Rgb(p, q, h - 1.0 / 3.0) * 255.0))
  }

  /** The upper intermediate value `q` of `hslToRgb`. */
  function UpperQ(s: real, l: real): real {
    if l < 0.5 then l * (1.0 + s) else l + s - l * s
  }

  function HslToRgb(hsl: HslColor): RgbColor {
    var h, s, l := hsl.h as real / 360.0, hsl.s as real / 100.0, hsl.l as real / 100.0;
    if s == 0.0 then
      var v := Round(l * 255.0);
      RgbColor(v, v, v)
    else
      var q := UpperQ(s, l);
      HueChannels(2.0 * l - q, q, h)
  }

  // ---------------------------------------------------------------- cmyk

  function RgbToCmyk(c: RgbColor): CmykColor {
    var r, g, b := Unit(c.r), Unit(c.g), Unit(c.b);
    var k := 1.0 - MaxUnit(c);
    if k == 1.0 then CmykColor(0, 0, 0, 100)
    else
      CmykColor(Round((1.0 - r - k) / (1.0 - k) * 100.0),
                Round((1.0 - g - k) / (1.0 - k) * 100.0),
                Round((1.0 - b - k) / (1.0 - k) * 100.0),
                Round(k * 100.0))
  }

  /** One channel of the cmyk branch of `convertAllFormats`: `round(255 * (1 - min(1, x * (1 - k) + k)))`. */
  function CmykChannel(x: int, k: int): int {
    var xr, kr := x as real / 100.0, k as real / 100.0;
    Round(255.0 * (1.0 - MinR(1.0, xr * (1.0 - kr) + kr)))
  }

  function CmykToRgb(cmyk: CmykColor): RgbColor {
    RgbColor(CmykChannel(cmyk.c, cmyk.k), CmykChannel(cmyk.m, cmyk.k), CmykChannel(cmyk.y, cmyk.k))
  }

  // ---------------------------------------------------------------- convertAllFormats

  /** The first half of `convertAllFormats`: the RGB hub of text in the given format, or `None`. */
  function ToRgb(color: string, format: ColorFormat): Option<RgbColor> {
    match format
    case Hex => HexToRgb(color)
    case Rgb =>
      (match Search(color, RgbMarks)
       case None => None
       case Some(v) => Some(RgbColor(v[0], v[1], v[2])))
    case Hsl =>
      (match Search(color, HslMarks)
       case None => None
       case Some(v) => Some(HslToRgb(HslColor(v[0], v[1], v[2]))))
    case Cmyk =>
      (match Search(color, CmykMarks)
       case None => None
       case Some(v) => Some(CmykToRgb(CmykColor(v[0], v[1], v[2], v[3]))))
  }

  function HslText(hsl: HslColor): string { Render([hsl.h, hsl.s, hsl.l], HslMarks) }
  function RgbText(c: RgbColor): string { Render([c.r, c.g, c.b], RgbMarks) }
  function CmykText(cmyk: CmykColor): string { Render([cmyk.c, cmyk.m, cmyk.y, cmyk.k], CmykMarks) }

  /** The second half of `convertAllFormats`: the four text forms of an RGB hub. */
  function FromRgb(c: RgbColor): ColorValues
    requires HslDefined(c)
  {
    ColorValues(RgbToHex(c), RgbText(c), HslText(RgbToHsl(c)), CmykText(RgbToCmyk(c)))
  }

  /** Every text form of `color` read as `format`, or `None` when it cannot be read. */
  function ConvertAllFormats(color: string, format: ColorFormat): Option<ColorValues>
    requires var hub := ToRgb(color, format); hub.Some? ==> HslDefined(hub.value)
  {
    match ToRgb(color, format)
    case None => None
    case Some(c) => Some(FromRgb(c))
  }
}
