/**
 * The colour converter page: the text the user edits, the four forms it shows, whether the last
 * input was accepted, and the list of recent colours. `handleColorChange` normalises the input by the
 * format it was typed in, detects the format of the result, converts it to all four forms and, on
 * success, puts the hex form at the head of the recent colours.
 */
module ColorPage {
  import opened Options
  import opened Strings
  import opened ColorConverter
  import opened ColorHex
  import opened ColorMath
  import opened ColorConvert

  /** The colour the page starts with and returns to on reset. */
  const DefaultColor: string := "#FF5733"

  /** The four forms shown before anything was converted. */
  const DefaultValues: ColorValues :=
    ColorValues("#FF5733", "255, 87, 51", "11\U{00B0}, 100%, 60%", "0%, 66%, 80%, 0%")

  /** The colours "example" picks from. */
  const ExampleColors: seq<string> :=
    ["#FF5733", "#33FF57", "#3357FF", "#F3FF33", "#FF33F3", "#33FFF3", "#8B33FF", "#FF8B33", "#33FF8B", "#FF338B"]

  /** How many recent colours the page keeps. */
  const RecentLimit: nat := 6

  // ---------------------------------------------------------------- one conversion

  /**
   * What `handleColorChange` computes from its input: normalise by the source format, detect the
   * format of the normalised text, and convert it to all four forms; `None` when either step fails.
   */
  function Convert(color: string, source: ColorFormat): Option<ColorValues> {
    var n := Normalize(color, source);
    var f := DetectFormat(n);
    if f.None? then None
    else
      NormalizedHub(color, source);
      InGamutHslDefined(ToRgb(n, f.value).value);
      ConvertAllFormats(n, f.value)
  }

  /** Input the converter accepts: anything but hex text that does not normalise to six digits. */
  predicate Accepted(color: string, source: ColorFormat) {
    source != Hex || SixUpperHex(NormalizeHex(color)[1..])
  }

  /** Accepted input is read in the format it was typed in, once normalised. */
  lemma AcceptedReadsSource(color: string, source: ColorFormat)
    requires Accepted(color, source)
    ensures DetectFormat(Normalize(color, source)) == Some(source)
  {
    DetectNormalized(color, source);
  }

  /** The conversion succeeds exactly on accepted input. */
  lemma ConvertAccepted(color: string, source: ColorFormat)
    ensures Convert(color, source).Some? <==> Accepted(color, source)
  {
    var n := Normalize(color, source);
    DetectNormalized(color, source);
    NormalizedHub(color, source);
    if Accepted(color, source) {
      assert DetectFormat(n) == Some(source);
      assert ToRgb(n, source).Some?;
    }
  }

  /** A value `convertAllFormats` returns for an in-gamut colour. */
  lemma ConvertedFrom(color: string, source: ColorFormat)
    requires Convert(color, source).Some?
    ensures var n := Normalize(color, source);
            var f := DetectFormat(n);
            f.Some? && ToRgb(n, f.value).Some? && InGamut(ToRgb(n, f.value).value)
            && Convert(color, source) == Some(FromRgb(ToRgb(n, f.value).value))
  {
    NormalizedHub(color, source);
  }

  /**
   * The forms the page shows are consistent: converting the shown hex text, or the shown rgb text,
   * again gives back the very same four forms, and the hex form is in normal form.
   */
  lemma ConvertStable(color: string, source: ColorFormat)
    requires Convert(color, source).Some?
    ensures var cv := Convert(color, source).value;
            Convert(cv.hex, Hex) == Some(cv) && Convert(cv.rgb, Rgb) == Some(cv)
            && NormalizeHex(cv.hex) == cv.hex && DetectFormat(cv.hex) == Some(Hex)
  {
    ConvertedFrom(color, source);
    var n := Normalize(color, source);
    var c := ToRgb(n, DetectFormat(n).value).value;
    var cv := FromRgb(c);
    ConvertedFormsCanonical(c);
    assert Convert(cv.hex, Hex) == ConvertAllFormats(cv.hex, Hex);
    assert Convert(cv.rgb, Rgb) == ConvertAllFormats(cv.rgb, Rgb);
  }

  lemma FromRgbHex(c: RgbColor)
    requires HslDefined(c)
    ensures FromRgb(c).hex == RgbToHex(c)
  {
  }

  /** The starting colour converts to the four forms the page starts with. */
  lemma ConvertDefault()
    ensures Convert(DefaultColor, Hex) == Some(DefaultValues)
  {
    var body := "FF5733";
    assert DefaultColor == "#" + body;
    assert SixUpperHex(body);
    NormalizeHexOfSix(body);
    DetectNormalizedHex(DefaultColor);
    DefaultConversion();
  }

  /** Every example colour converts and is shown back exactly as listed. */
  lemma ExamplesConvert(i: nat)
    requires i < |ExampleColors|
    ensures Convert(ExampleColors[i], Hex).Some? && Convert(ExampleColors[i], Hex).value.hex == ExampleColors[i]
  {
    var e := ExampleColors[i];
    assert HexText(e) by {
      assert SixUpperHex(e[1..]);
    }
    HexTextShown(e);
  }

  // ---------------------------------------------------------------- recent colours

  predicate NoDuplicates(s: seq<string>) {
    forall i, j | 0 <= i < j < |s| :: s[i] != s[j]
  }

  /** `s.filter((c) => c !== x)`. */
  function Without(s: seq<string>, x: string): (r: seq<string>)
    ensures |r| <= |s| && x !in r
    ensures forall y :: y in r <==> y in s && y != x
  {
    if s == [] then []
    else (if s[0] == x then [] else [s[0]]) + Without(s[1..], x)
  }

  /** Dropping one value from a list without duplicates leaves a list without duplicates. */
  lemma {:induction false} WithoutNoDuplicates(s: seq<string>, x: string)
    requires NoDuplicates(s)
    ensures NoDuplicates(Without(s, x))
  {
    if s != [] {
      assert NoDuplicates(s[1..]);
      WithoutNoDuplicates(s[1..], x);
      assert s[0] !in s[1..];
    }
  }

  /** Dropping a value that is absent changes nothing. */
  lemma {:induction false} WithoutAbsent(s: seq<string>, x: string)
    requires x !in s
    ensures Without(s, x) == s
  {
    if s != [] {
      assert x !in s[1..];
      WithoutAbsent(s[1..], x);
    }
  }

  /** `[hex, ...prev.filter((c) => c !== hex)].slice(0, 6)`. */
  function PushRecent(recent: seq<string>, hex: string): (r: seq<string>)
    ensures 0 < |r| <= RecentLimit && r[0] == hex
  {
    var all := [hex] + Without(recent, hex);
    all[..Min(RecentLimit, |all|)]
  }

  /**
   * The new list starts with the colour, followed by the old list without it, in its order, cut to
   * six colours in all; it holds nothing that was not the colour or in the old list, keeps every
   * old colour while there is room, and has no duplicates when the old list had none.
   */
  lemma PushRecentSpec(recent: seq<string>, hex: string)
    ensures var r := PushRecent(recent, hex);
            |r| <= RecentLimit && r != [] && r[0] == hex
            && r[1..] == Without(recent, hex)[..|r| - 1]
            && |r| == Min(RecentLimit, |Without(recent, hex)| + 1)
            && (forall y :: y in r ==> y == hex || y in recent)
            && (|recent| < RecentLimit ==> forall y :: y in recent ==> y in r)
            && (NoDuplicates(recent) ==> NoDuplicates(r))
  {
    var w := Without(recent, hex);
    var all := [hex] + w;
    var r := PushRecent(recent, hex);
    assert r[1..] == w[..|r| - 1];
    forall y | y in r
      ensures y == hex || y in recent
    {
      assert y in all;
    }
    if |recent| < RecentLimit {
      assert r == all;
    }
    if NoDuplicates(recent) {
      WithoutNoDuplicates(recent, hex);
      assert NoDuplicates(all);
    }
  }

  /** Pushing the colour already at the head of a list that holds it once changes nothing. */
  lemma PushRecentHead(recent: seq<string>)
    requires recent != [] && |recent| <= RecentLimit && recent[0] !in recent[1..]
    ensures PushRecent(recent, recent[0]) == recent
  {
    var h := recent[0];
    assert recent == [h] + recent[1..];
    WithoutAbsent(recent[1..], h);
    assert Without(recent, h) == recent[1..];
  }

  /** Choosing the colour at the head of the list again leaves the list as it is. */
  lemma PushRecentIdempotent(recent: seq<string>, hex: string)
    ensures PushRecent(PushRecent(recent, hex), hex) == PushRecent(recent, hex)
  {
    var r := PushRecent(recent, hex);
    PushRecentSpec(recent, hex);
    assert hex !in r[1..] by {
      var all := [hex] + Without(recent, hex);
      assert r[1..] == all[1..|r|];
    }
    PushRecentHead(r);
  }

  // ---------------------------------------------------------------- the page

  /** `#` and six upper-case hex digits: the hex form the converter writes. */
  predicate HexText(h: string) {
    |h| == 7 && h[0] == '#' && SixUpperHex(h[1..])
  }

  /** Every hex form the converter writes is `#` and six upper-case hex digits. */
  lemma ConvertedHexText(color: string, source: ColorFormat)
    requires Convert(color, source).Some?
    ensures HexText(Convert(color, source).value.hex)
  {
    ConvertedFrom(color, source);
    var n := Normalize(color, source);
    RgbToHexShape(ToRgb(n, DetectFormat(n).value).value);
  }

  /** Hex text of that shape is its own normal form, and is recognised and read as hex. */
  lemma HexTextReads(h: string)
    requires HexText(h)
    ensures NormalizeHex(h) == h && DetectFormat(h) == Some(Hex)
    ensures HexToRgb(h).Some? && InGamut(HexToRgb(h).value)
  {
    assert h == "#" + h[1..];
    NormalizeHexOfSix(h[1..]);
    DetectNormalizedHex(h);
    HexHub(h);
  }

  /** Hex text of that shape converts, and clicking it shows it back exactly. */
  lemma HexTextShown(h: string)
    requires HexText(h)
    ensures Convert(h, Hex).Some? && Convert(h, Hex).value.hex == h
  {
    HexTextReads(h);
    var c := HexToRgb(h).value;
    InGamutHslDefined(c);
    assert Convert(h, Hex) == Some(FromRgb(c));
    FromRgbHex(c);
    HexToRgbThenHex(h);
  }

  /** At most six distinct recent colours, each a hex form the converter writes. */
  predicate RecentValid(recent: seq<string>) {
    |recent| <= RecentLimit && NoDuplicates(recent) && forall i | 0 <= i < |recent| :: HexText(recent[i])
  }

  /** Pushing a hex form the converter writes keeps the recent colours valid. */
  lemma PushRecentValid(recent: seq<string>, hex: string)
    requires RecentValid(recent) && HexText(hex)
    ensures RecentValid(PushRecent(recent, hex))
  {
    var r := PushRecent(recent, hex);
    PushRecentSpec(recent, hex);
    forall i | 0 <= i < |r|
      ensures HexText(r[i])
    {
      assert r[i] in r;
      if r[i] != hex {
        var k :| 0 <= k < |recent| && recent[k] == r[i];
      }
    }
  }

  /**
   * Dropping a value that occurs once from a list without duplicates shortens it by one.
   */
  lemma {:induction false} WithoutPresent(s: seq<string>, x: string)
    requires NoDuplicates(s) && x in s
    ensures |Without(s, x)| == |s| - 1
  {
    assert NoDuplicates(s[1..]);
    if s[0] == x {
      assert x !in s[1..];
      WithoutAbsent(s[1..], x);
    } else {
      assert x in s[1..];
      WithoutPresent(s[1..], x);
    }
  }

  /** The state of the page: the values of its five state hooks. */
  datatype PageState = PageState(
    colorValues: ColorValues,
    editingFormat: ColorFormat,
    editingValue: string,
    isValid: bool,
    recentColors: seq<string>)

  /** The state the page starts in, before it is mounted. */
  const InitialState: PageState := PageState(DefaultValues, Hex, DefaultValues.hex, true, [])

  /**
   * The recent colours are valid, and the forms shown are the conversion of their own hex text: a
   * page never shows four forms that disagree.
   */
  predicate ValidState(s: PageState) {
    RecentValid(s.recentColors) && Convert(s.colorValues.hex, Hex) == Some(s.colorValues)
  }

  /** `handleColorChange(color, source)`: the state after its batched updates are committed. */
  function ColorChanged(s: PageState, color: string, source: ColorFormat): PageState {
    match Convert(color, source)
    case None => s.(isValid := false)
    case Some(cv) => PageState(cv, source, Normalize(color, source), true, PushRecent(s.recentColors, cv.hex))
  }

  /** `handleInputChange(value, format)`: the typed text is kept, then converted. */
  function InputChanged(s: PageState, value: string, format: ColorFormat): PageState {
    ColorChanged(s.(editingFormat := format, editingValue := value), value, format)
  }

  /** `Math.floor(Math.random() * EXAMPLE_COLORS.length)` for a `roll` in [0, 1). */
  function ExampleIndex(roll: real): (i: nat)
    requires 0.0 <= roll < 1.0
    ensures i < |ExampleColors|
  {
    (roll * (|ExampleColors| as real)).Floor
  }

  /** `setExample()`: converts the example colour the roll picks. */
  function ExampleChosen(s: PageState, roll: real): PageState
    requires 0.0 <= roll < 1.0
  {
    ColorChanged(s, ExampleColors[ExampleIndex(roll)], Hex)
  }

  /** `resetInput()`, and the effect that runs when the page is mounted. */
  function Reset(s: PageState): PageState {
    ColorChanged(s, DefaultColor, Hex)
  }

  /** The initial state is valid. */
  lemma InitialValid()
    ensures ValidState(InitialState)
  {
    ConvertDefault();
  }

  /**
   * A change is accepted exactly when its input is; an accepted change shows the conversion, keeps
   * the normalised text (which reads back in the source format) for editing and puts the hex form at
   * the head of the recent colours; a rejected one only clears `isValid`.
   */
  lemma ColorChangedSpec(s: PageState, color: string, source: ColorFormat)
    ensures var t := ColorChanged(s, color, source);
            && (t.isValid <==> Accepted(color, source))
            && (Accepted(color, source) ==>
                  && Convert(color, source) == Some(t.colorValues)
                  && t.editingFormat == source && t.editingValue == Normalize(color, source)
                  && DetectFormat(t.editingValue) == Some(source)
                  && t.recentColors == PushRecent(s.recentColors, t.colorValues.hex)
                  && t.recentColors[0] == t.colorValues.hex)
            && (!Accepted(color, source) ==> t == s.(isValid := false))
  {
    ConvertAccepted(color, source);
    if Accepted(color, source) {
      AcceptedReadsSource(color, source);
      PushRecentSpec(s.recentColors, Convert(color, source).value.hex);
    }
  }

  /** Every change keeps the page valid. */
  lemma ColorChangedValid(s: PageState, color: string, source: ColorFormat)
    requires ValidState(s)
    ensures ValidState(ColorChanged(s, color, source))
  {
    var r := Convert(color, source);
    if r.Some? {
      ConvertStable(color, source);
      ConvertedHexText(color, source);
      PushRecentValid(s.recentColors, r.value.hex);
    }
  }

  /** Rejected typing keeps the typed text and its format in the input, marked invalid. */
  lemma InputRejectedKept(s: PageState, value: string, format: ColorFormat)
    requires !Accepted(value, format)
    ensures InputChanged(s, value, format)
         == s.(editingFormat := format, editingValue := value, isValid := false)
  {
    ConvertAccepted(value, format);
  }

  /** An accepted change, written out. */
  lemma ColorChangedOk(s: PageState, color: string, source: ColorFormat, v: ColorValues)
    requires Convert(color, source) == Some(v)
    ensures ColorChanged(s, color, source)
         == PageState(v, source, Normalize(color, source), true, PushRecent(s.recentColors, v.hex))
  {
  }

  /**
   * Pushing a colour already in a list of at most six distinct colours moves it to the head: the
   * list keeps its length and its colours.
   */
  lemma PushRecentPresent(recent: seq<string>, h: string)
    requires NoDuplicates(recent) && |recent| <= RecentLimit && h in recent
    ensures var r := PushRecent(recent, h);
            |r| == |recent| && r[0] == h && forall y :: y in r <==> y in recent
  {
    PushRecentSpec(recent, h);
    WithoutPresent(recent, h);
    assert PushRecent(recent, h) == [h] + Without(recent, h);
  }

  /** A recent colour, clicked: it converts and the change is accepted. */
  lemma RecentColorChange(s: PageState, h: string)
    requires HexText(h)
    ensures var t := ColorChanged(s, h, Hex);
            t.isValid && t.colorValues.hex == h && t.recentColors == PushRecent(s.recentColors, h)
  {
    HexTextShown(h);
    ColorChangedOk(s, h, Hex, Convert(h, Hex).value);
  }

  /**
   * Clicking a recent colour shows it again and moves it to the head of the list, which keeps the
   * same colours and the same length.
   */
  lemma RecentColorClicked(s: PageState, i: nat)
    requires ValidState(s) && i < |s.recentColors|
    ensures var h := s.recentColors[i];
            var t := ColorChanged(s, h, Hex);
            && t.isValid && t.colorValues.hex == h
            && |t.recentColors| == |s.recentColors| && t.recentColors[0] == h
            && forall y :: y in t.recentColors <==> y in s.recentColors
  {
    var h := s.recentColors[i];
    RecentColorChange(s, h);
    PushRecentPresent(s.recentColors, h);
  }

  /** Clicking the colour at the head of the recent list leaves the list as it is. */
  lemma RecentHeadClicked(s: PageState)
    requires ValidState(s) && s.recentColors != []
    ensures ColorChanged(s, s.recentColors[0], Hex).recentColors == s.recentColors
  {
    var recent := s.recentColors;
    RecentColorChange(s, recent[0]);
    assert recent[0] !in recent[1..];
    PushRecentHead(recent);
  }

  /** `setExample()` always succeeds and shows the chosen example colour exactly as listed. */
  lemma ExampleChosenSpec(s: PageState, roll: real)
    requires 0.0 <= roll < 1.0
    ensures var e := ExampleColors[ExampleIndex(roll)];
            var t := ExampleChosen(s, roll);
            t.isValid && t.colorValues.hex == e && t.editingValue == e && t.recentColors[0] == e
  {
    var e := ExampleColors[ExampleIndex(roll)];
    assert HexText(e) && NormalizeHex(e) == e by {
      assert e == "#" + e[1..];
      assert SixUpperHex(e[1..]);
      NormalizeHexOfSix(e[1..]);
    }
    HexTextShown(e);
    ColorChangedOk(s, e, Hex, Convert(e, Hex).value);
    PushRecentSpec(s.recentColors, e);
  }

  /** The starting colour is in normal form. */
  lemma DefaultNormal()
    ensures Normalize(DefaultColor, Hex) == DefaultColor
  {
    var body := "FF5733";
    assert DefaultColor == "#" + body;
    assert SixUpperHex(body);
    NormalizeHexOfSix(body);
  }

  /** `resetInput()` shows the starting colour and its four forms again. */
  lemma ResetSpec(s: PageState)
    ensures Reset(s) == PageState(DefaultValues, Hex, DefaultColor, true, PushRecent(s.recentColors, DefaultColor))
  {
    ConvertDefault();
    DefaultNormal();
    ColorChangedOk(s, DefaultColor, Hex, DefaultValues);
  }

  /** Once mounted, the page shows the starting colour, which is its only recent colour. */
  lemma MountedSpec()
    ensures Reset(InitialState) == PageState(DefaultValues, Hex, DefaultColor, true, [DefaultColor])
  {
    ResetSpec(InitialState);
    assert Without([], DefaultColor) == [];
  }

  // ---------------------------------------------------------------- focus

  /** The form of one format among the four. */
  function FormOf(v: ColorValues, f: ColorFormat): string {
    match f
    case Hex => v.hex
    case Rgb => v.rgb
    case Hsl => v.hsl
    case Cmyk => v.cmyk
  }

  /** What the input for `f` shows: the text being edited when `f` is the editing format, else its form. */
  function Shown(s: PageState, f: ColorFormat): string {
    if s.editingFormat == f then s.editingValue else FormOf(s.colorValues, f)
  }

  /** `onFocus={() => setEditingFormat(f)}` as written: only the editing format moves. */
  function FocusedAsWritten(s: PageState, f: ColorFormat): (r: PageState)
    ensures r.editingFormat == f && Shown(r, f) == s.editingValue
    ensures r.colorValues == s.colorValues && r.isValid == s.isValid && r.recentColors == s.recentColors
  {
    s.(editingFormat := f)
  }

  /**
   * On the mounted page, focusing the rgb input makes it show the hex text `#FF5733` in place of
   * its own form `255, 87, 51`.
   */
  lemma FocusShowsForeignText()
    ensures var s := Reset(InitialState);
            && Shown(s, Rgb) == "255, 87, 51"
            && Shown(FocusedAsWritten(s, Rgb), Rgb) == "#FF5733"
  {
    MountedSpec();
  }

  /**
   * Focusing an input, corrected: the input that takes the focus starts from its own form, and
   * focusing the input already being edited keeps its text.
   */
  function Focused(s: PageState, f: ColorFormat): (r: PageState)
    ensures r.editingFormat == f
    ensures f != s.editingFormat ==> Shown(r, f) == FormOf(s.colorValues, f)
    ensures f == s.editingFormat ==> r == s
    ensures r.colorValues == s.colorValues && r.isValid == s.isValid && r.recentColors == s.recentColors
  {
    if f == s.editingFormat then s else s.(editingFormat := f, editingValue := FormOf(s.colorValues, f))
  }

  /**
   * With the correction, moving the focus changes what no input shows except the one that was being
   * edited, which goes back to its own form; and typing after a focus does what typing alone does.
   */
  lemma FocusKeepsDisplay(s: PageState, f: ColorFormat, value: string)
    ensures forall g :: g != s.editingFormat ==> Shown(Focused(s, f), g) == Shown(s, g)
    ensures Shown(Focused(s, f), s.editingFormat)
            == if f == s.editingFormat then s.editingValue else FormOf(s.colorValues, s.editingFormat)
    ensures InputChanged(Focused(s, f), value, f) == InputChanged(s, value, f)
  {
  }

  class ColorConverterPage {
    var colorValues: ColorValues
    var editingFormat: ColorFormat
    var editingValue: string
    var isValid: bool
    var recentColors: seq<string>

    function State(): PageState
      reads this
    {
      PageState(colorValues, editingFormat, editingValue, isValid, recentColors)
    }

    predicate Valid()
      reads this
    {
      ValidState(State())
    }

    /** The state before the page is mounted. */
    constructor()
      ensures State() == InitialState && Valid()
    {
      colorValues := DefaultValues;
      editingFormat := Hex;
      editingValue := DefaultValues.hex;
      isValid := true;
      recentColors := [];
      InitialValid();
    }

    /** Commits the state updates one event handler makes, as a re-render does. */
    method Commit(next: PageState)
      modifies this
      ensures State() == next
    {
      colorValues := next.colorValues;
      editingFormat := next.editingFormat;
      editingValue := next.editingValue;
      isValid := next.isValid;
      recentColors := next.recentColors;
    }

    method HandleColorChange(color: string, source: ColorFormat)
      requires Valid()
      modifies this
      ensures State() == ColorChanged(old(State()), color, source) && Valid()
    {
      ColorChangedValid(State(), color, source);
      Commit(ColorChanged(State(), color, source));
    }

    method HandleInputChange(value: string, format: ColorFormat)
      requires Valid()
      modifies this
      ensures State() == InputChanged(old(State()), value, format) && Valid()
    {
      Commit(State().(editingFormat := format, editingValue := value));
      HandleColorChange(value, format);
    }

    /** `roll` stands for `Math.random()`, which lies in [0, 1). */
    method SetExample(roll: real)
      requires Valid() && 0.0 <= roll < 1.0
      modifies this
      ensures State() == ExampleChosen(old(State()), roll) && Valid()
    {
      var i := ExampleIndex(roll);
      HandleColorChange(ExampleColors[i], Hex);
    }

    /** An input's `onFocus`, as corrected by `Focused`. */
    method HandleFocus(f: ColorFormat)
      requires Valid()
      modifies this
      ensures State() == Focused(old(State()), f) && Valid()
    {
      Commit(Focused(State(), f));
    }

    method ResetInput()
      requires Valid()
      modifies this
      ensures State() == Reset(old(State())) && Valid()
    {
      HandleColorChange(DefaultColor, Hex);
    }
  }

  /** A new page with its mount effect run. */
  method Mount() returns (page: ColorConverterPage)
    ensures fresh(page) && page.Valid() && page.State() == Reset(InitialState)
  {
    page := new ColorConverterPage();
    page.ResetInput();
  }
}
