# Dev Toolbox, modelled in Dafny

Dev Toolbox is a VS Code extension. It opens a webview panel holding a handful of developer tools,
and it lists those tools in a tree view of the activity bar. This project models the logic of the
extension and its webview pages and proves properties about that logic. The pages are:

- **Colour converter** (the core of the model). Colour text in hex, rgb, hsl or cmyk is detected,
  normalised, converted through an rgb hub to all four forms, and remembered in a list of recent
  colours. Modules: `ColorConverter`, `ColorHex`, `ColorText`, `ColorMath`, `ColorConvert`,
  `ColorPage`. The regular expressions the converter uses are modelled by `Scanning`.
- **Timestamp converter**. This covers the timezone list (duplicates dropped, ordered by region and
  label, searched from a dropdown), the choice of the user's zone, and the seconds/milliseconds
  arithmetic of the two conversion directions. Modules: `Timezones`, `Timestamp`.
- **Image format converter**. This covers aspect-ratio-locked resizing, rotate/flip/reset, the
  output format table, file-name extension stripping and clearing (`ImagePage`).
- **UUID generator**. This covers the v4 template filled from given random nibbles, count
  clamping, and the output joined by line breaks (`Uuid`).
- **Translator**. This covers the language list, the target menu, the swap rule, and the result
  and error texts of a translation (`Translator`).
- **Webview API wrapper**. This covers message posting, state persistence inside and outside VS
  Code, toasts, and asset URIs (`VscodeApi`).
- **Extension side**. This covers the tree data provider, icon paths, and the toolbox panel with its
  theme messages, message dispatch and disposal (`TreeProvider`, `Icon`, `ToolboxPanels`).
- **Dashboard**. This covers the tools store and the category filter (`ToolsStore`,
  `CategoryFilter`).

Shared helpers:
- `Options`, the option type;
- `Strings`, JavaScript string operations on ASCII: trim, case, decimal and hex numerals;
- `Ordering`, the code-unit string order used for `localeCompare` and for sorting.

JavaScript numbers are modelled as follows:
- Colour arithmetic uses exact rationals (`real`), and `Math.round` is `Round`.
- Integer inputs use `int`.
- Randomness, clocks, the runtime's `Date` parser, its `Intl` formatters, the clipboard, the
  network, the file reader and the canvas are all parameters of the operations that use them.

Each page that keeps React state is a class whose fields are that state. Each handler is a method
proved against a pure transition function, and the properties are proved about those functions.
Where effects react to what a handler sets, a second method models the handler followed by the
effects. On the timestamp page they run up to the state where they change nothing more. On the
image page, every handler that changes a value the processing effect watches is followed by
`processImage`, whose own changes the effect does not watch. The colour page's focus handlers are modelled as corrected; the code as written is
under "## Findings".

## Model

Source paths are relative to the repository root.

| member | source | states |
|---|---|---|
| ColorConverter.Round | webview-ui/src/pages/color-converter/index.tsx:140-166 | `Math.round` gives the integer within one half below and less than one half above |
| ColorConverter.Clamp | webview-ui/src/pages/color-converter/index.tsx:75-77 | `Math.max(lo, Math.min(hi, x))` lies in [lo, hi] and leaves values already there unchanged |
| ColorConverter.DetectFormat | webview-ui/src/pages/color-converter/index.tsx:28-56 | blank text has no format; the result is hex exactly when the text is non-blank and matches the hex pattern |
| ColorConverter.DoubleEach | webview-ui/src/pages/color-converter/index.tsx:62-66 | each character is written twice, in place |
| ColorConverter.StripHash | webview-ui/src/pages/color-converter/index.tsx:61 | exactly one leading `#` is removed, and nothing else changes |
| ColorConverter.HexPair | webview-ui/src/pages/color-converter/index.tsx:112-114 | two hex digits read as a number below 256 |
| ColorConverter.HexToRgb | webview-ui/src/pages/color-converter/index.tsx:108-117 | a colour is returned exactly when the normal form is six hex digits, with every channel in [0, 255] |
| ColorConverter.HexNumeral | webview-ui/src/pages/color-converter/index.tsx:125 | `toString(16)` gives a non-empty numeral |
| ColorConverter.PadStart | webview-ui/src/pages/color-converter/index.tsx:125 | `padStart` gives the larger of the length and the width |
| ColorHex.HexByteDigits | webview-ui/src/pages/color-converter/index.tsx:119-128 | for each channel, the padded, upper-cased hex numeral of the clamped channel is its two digits |
| ColorHex.RgbToHexShape | webview-ui/src/pages/color-converter/index.tsx:119-128 | `rgbToHex` writes `#` and exactly six upper-case hex digits |
| ColorHex.NormalizeHexOfSix | webview-ui/src/pages/color-converter/index.tsx:59-69 | `#` plus six upper-case hex digits is already in normal form |
| ColorHex.HexPairOfDigits | webview-ui/src/pages/color-converter/index.tsx:112-114 | the two digits written for a channel read back as that channel |
| ColorHex.HexRoundTrip | webview-ui/src/pages/color-converter/index.tsx:108-128 | `hexToRgb(rgbToHex(r, g, b)) == (r, g, b)` for channels in [0, 255] |
| ColorHex.DigitsOfPair | webview-ui/src/pages/color-converter/index.tsx:108-128 | a channel read from two upper-case digits is written back as those two digits |
| ColorHex.HexToRgbThenHex | webview-ui/src/pages/color-converter/index.tsx:108-128 | when `hexToRgb` reads a colour, `rgbToHex` writes back its normal form |
| ColorHex.ToUpperIdempotent | webview-ui/src/pages/color-converter/index.tsx:61 | upper-casing twice is upper-casing once |
| ColorHex.NormalizeHexShape | webview-ui/src/pages/color-converter/index.tsx:59-69 | `normalizeHex` drops one `#`, upper-cases, doubles a 3-digit body, keeps every other length and prefixes `#` |
| ColorHex.NormalizedHexBody | webview-ui/src/pages/color-converter/index.tsx:59-69 | a normal form's body is never three long and holds no lower-case letter |
| ColorHex.NormalizeHexIdempotent | webview-ui/src/pages/color-converter/index.tsx:59-69 | `normalizeHex` is idempotent |
| ColorHex.HashNotFields | webview-ui/src/pages/color-converter/index.tsx:37-52 | text behind a `#` matches none of the rgb, hsl and cmyk patterns |
| ColorHex.DetectHashText | webview-ui/src/pages/color-converter/index.tsx:28-56 | text behind a `#` is detected as hex or not at all |
| ColorHex.DetectHashUpper | webview-ui/src/pages/color-converter/index.tsx:28-56 | upper-case `#` text whose body is not three long is hex exactly when the body is six hex digits |
| ColorHex.DetectNormalizedHex | webview-ui/src/pages/color-converter/index.tsx:28-69 | normalised hex text is detected as hex exactly when its body is six digits, and otherwise is not detected at all |
| ColorText.RgbZeroText | webview-ui/src/pages/color-converter/index.tsx:73 | the fallback text `0, 0, 0` is the zero triple written the way `normalizeRgb` writes a triple |
| ColorText.HslZeroText | webview-ui/src/pages/color-converter/index.tsx:84 | the fallback text `0°, 0%, 0%` is the zero triple written the way `normalizeHsl` writes a triple |
| ColorText.CmykZeroText | webview-ui/src/pages/color-converter/index.tsx:97 | the fallback text `0%, 0%, 0%, 0%` is the zero quadruple written the way `normalizeCmyk` writes one |
| ColorText.FieldsNotHex | webview-ui/src/pages/color-converter/index.tsx:28-35 | field lists are neither blank nor hex |
| ColorText.MarkedFirstField | webview-ui/src/pages/color-converter/index.tsx:37-52 | a list whose first field carries a marker cannot match a pattern whose first field takes another marker |
| ColorText.RgbFieldsText | webview-ui/src/pages/color-converter/index.tsx:37-79 | rgb text reads back as its numbers and is detected as rgb |
| ColorText.HslFieldsText | webview-ui/src/pages/color-converter/index.tsx:42-90 | hsl text reads back as its numbers and is detected as hsl, not rgb |
| ColorText.CmykFieldsText | webview-ui/src/pages/color-converter/index.tsx:47-105 | cmyk text reads back as its numbers and is detected as cmyk |
| ColorText.NormalizeRgbFields | webview-ui/src/pages/color-converter/index.tsx:71-79 | `normalizeRgb` writes the first triple clamped to [0, 255], or zeros when there is none; the result reads back as those numbers and is detected as rgb |
| ColorText.NormalizeHslFields | webview-ui/src/pages/color-converter/index.tsx:81-90 | `normalizeHsl` writes the first triple clamped to [0, 360], [0, 100] and [0, 100], or zeros |
| ColorText.NormalizeCmykFields | webview-ui/src/pages/color-converter/index.tsx:92-105 | `normalizeCmyk` writes the first quadruple clamped to [0, 100], or zeros |
| ColorText.HexNoComma | webview-ui/src/pages/color-converter/index.tsx:32 | hex text holds no comma |
| ColorText.TripleShape | webview-ui/src/pages/color-converter/index.tsx:37 | text matching the rgb pattern is non-blank and holds a comma |
| ColorText.TripleIsRgb | webview-ui/src/pages/color-converter/index.tsx:28-40 | a bare integer triple is always detected as rgb |
| ColorText.TripleAlsoHsl | webview-ui/src/pages/color-converter/index.tsx:37-45 | every bare triple also matches the hsl pattern, so only the test order makes it rgb |
| ColorMath.InGamutHslDefined | webview-ui/src/pages/color-converter/index.tsx:130-168 | channels in [0, 255] never make `rgbToHsl` divide by zero |
| ColorMath.RgbToHslRanges | webview-ui/src/pages/color-converter/index.tsx:130-168 | for channels in [0, 255]: hue in [0, 360], saturation and lightness in [0, 100] |
| ColorMath.RgbToHslGray | webview-ui/src/pages/color-converter/index.tsx:142-144 | a gray has hue 0 and saturation 0 |
| ColorMath.RgbToHslLightness | webview-ui/src/pages/color-converter/index.tsx:139-167 | the lightness is the rounded mean of the largest and smallest channel, in percent |
| ColorMath.HueReaches360 | webview-ui/src/pages/color-converter/index.tsx:146-166 | the hue can round up to 360 (for `255, 0, 1`) |
| ColorMath.HslToRgbGray | webview-ui/src/pages/color-converter/index.tsx:178-182 | zero saturation gives three equal channels `round(l * 255 / 100)` |
| ColorMath.Hue2RgbBetween | webview-ui/src/pages/color-converter/index.tsx:184-191 | `hue2rgb` stays between p and q |
| ColorMath.PqRange | webview-ui/src/pages/color-converter/index.tsx:193-194 | 0 <= p <= q <= 1 for saturation and lightness in [0, 1] |
| ColorMath.HslToRgbRanges | webview-ui/src/pages/color-converter/index.tsx:170-201 | for h in [0, 360] and s, l in [0, 100] every channel lies in [0, 255] |
| ColorMath.HslHue360 | webview-ui/src/pages/color-converter/index.tsx:170-201 | hue 360 and hue 0 give the same colour |
| ColorMath.RgbToCmykBlack | webview-ui/src/pages/color-converter/index.tsx:212-216 | black is `0, 0, 0, 100` |
| ColorMath.RgbToCmykRanges | webview-ui/src/pages/color-converter/index.tsx:203-224 | for channels in [0, 255] every component lies in [0, 100], and the ink of the largest channel is 0 |
| ColorMath.CmykToRgbRanges | webview-ui/src/pages/color-converter/index.tsx:266-281 | for components in [0, 100] every channel lies in [0, 255] |
| ColorMath.CmykToRgbBlackWhite | webview-ui/src/pages/color-converter/index.tsx:266-281 | full key is black whatever the inks; no ink at all is white |
| ColorConvert.NormalizeRgbOfFields | webview-ui/src/pages/color-converter/index.tsx:71-79 | in-range rgb text is left unchanged by `normalizeRgb` |
| ColorConvert.NormalizeHslOfFields | webview-ui/src/pages/color-converter/index.tsx:81-90 | in-range hsl text is left unchanged by `normalizeHsl` |
| ColorConvert.NormalizeCmykOfFields | webview-ui/src/pages/color-converter/index.tsx:92-105 | in-range cmyk text is left unchanged by `normalizeCmyk` |
| ColorConvert.NormalizeRgbIdempotent | webview-ui/src/pages/color-converter/index.tsx:71-79 | `normalizeRgb` is idempotent |
| ColorConvert.NormalizeHslIdempotent | webview-ui/src/pages/color-converter/index.tsx:81-90 | `normalizeHsl` is idempotent |
| ColorConvert.NormalizeCmykIdempotent | webview-ui/src/pages/color-converter/index.tsx:92-105 | `normalizeCmyk` is idempotent |
| ColorConvert.NormalizeIdempotent | webview-ui/src/pages/color-converter/index.tsx:385-398 | the page's normaliser is idempotent in every format |
| ColorConvert.DetectNormalized | webview-ui/src/pages/color-converter/index.tsx:385-400 | normalised text is detected as its own format, except hex that is not six digits, which is not detected |
| ColorConvert.HexHub | webview-ui/src/pages/color-converter/index.tsx:236-240 | normalised six-digit hex reads as a colour in gamut |
| ColorConvert.RgbHub | webview-ui/src/pages/color-converter/index.tsx:242-250 | normalised rgb text reads as a colour in gamut |
| ColorConvert.HslHub | webview-ui/src/pages/color-converter/index.tsx:252-264 | normalised hsl text reads as a colour in gamut |
| ColorConvert.CmykHub | webview-ui/src/pages/color-converter/index.tsx:266-281 | normalised cmyk text reads as a colour in gamut |
| ColorConvert.NormalizedHub | webview-ui/src/pages/color-converter/index.tsx:227-302 | detected normalised text always reads as a colour in gamut, so `convertAllFormats` finishes |
| ColorConvert.HexFormCanonical | webview-ui/src/pages/color-converter/index.tsx:292-294 | the hex form is canonical text that reads back as the hub |
| ColorConvert.RgbFormCanonical | webview-ui/src/pages/color-converter/index.tsx:295 | the rgb form is canonical text that reads back as the hub |
| ColorConvert.HslFormCanonical | webview-ui/src/pages/color-converter/index.tsx:289-296 | the hsl form is canonical hsl text |
| ColorConvert.CmykFormCanonical | webview-ui/src/pages/color-converter/index.tsx:290-297 | the cmyk form is canonical cmyk text |
| ColorConvert.ConvertedFormsCanonical | webview-ui/src/pages/color-converter/index.tsx:288-298 | every written form is accepted unchanged by its own field; hex and rgb read back as the hub |
| ColorConvert.DefaultConversion | webview-ui/src/pages/color-converter/index.tsx:366-371 | `#FF5733` converts to exactly the four starting forms |
| ColorPage.AcceptedReadsSource | webview-ui/src/pages/color-converter/index.tsx:383-400 | accepted input, normalised, is detected in its source format |
| ColorPage.ConvertAccepted | webview-ui/src/pages/color-converter/index.tsx:383-428 | a change succeeds exactly on accepted input: all but hex that does not normalise to six digits |
| ColorPage.ConvertedFrom | webview-ui/src/pages/color-converter/index.tsx:400-408 | a successful change shows the four forms of an in-gamut colour |
| ColorPage.ConvertStable | webview-ui/src/pages/color-converter/index.tsx:383-428 | converting the shown hex or rgb text again gives the same four forms |
| ColorPage.ConvertDefault | webview-ui/src/pages/color-converter/index.tsx:366-380 | the starting colour converts to the starting forms |
| ColorPage.ExamplesConvert | webview-ui/src/pages/color-converter/index.tsx:352-363 | every example colour converts and is shown exactly as listed |
| ColorPage.ExampleIndex | webview-ui/src/pages/color-converter/index.tsx:439-440 | `floor(random * 10)` is a valid example index |
| ColorPage.Without | webview-ui/src/pages/color-converter/index.tsx:417 | `filter(c => c !== hex)` keeps exactly the other colours |
| ColorPage.WithoutAbsent | webview-ui/src/pages/color-converter/index.tsx:417 | dropping an absent colour changes nothing |
| ColorPage.WithoutPresent | webview-ui/src/pages/color-converter/index.tsx:417 | dropping a colour held once shortens the list by one |
| ColorPage.WithoutNoDuplicates | webview-ui/src/pages/color-converter/index.tsx:417 | dropping a colour keeps a list free of duplicates |
| ColorPage.PushRecent | webview-ui/src/pages/color-converter/index.tsx:414-420 | the new recent list is non-empty, at most six long, and starts with the colour |
| ColorPage.PushRecentSpec | webview-ui/src/pages/color-converter/index.tsx:414-420 | the colour first, then the old list without it in its order, cut to six in all; nothing new, old colours kept while there is room, no duplicates introduced |
| ColorPage.PushRecentIdempotent | webview-ui/src/pages/color-converter/index.tsx:414-420 | pushing the same colour twice is pushing it once |
| ColorPage.PushRecentHead | webview-ui/src/pages/color-converter/index.tsx:414-420 | pushing the colour already at the head of a valid list changes nothing |
| ColorPage.PushRecentPresent | webview-ui/src/pages/color-converter/index.tsx:414-420 | pushing a colour already present moves it to the head, keeping length and colours |
| ColorPage.PushRecentValid | webview-ui/src/pages/color-converter/index.tsx:414-420 | pushing a converter hex form keeps the recent list valid |
| ColorPage.ConvertedHexText | webview-ui/src/pages/color-converter/index.tsx:403-408 | every hex form the page shows is `#` and six upper-case hex digits |
| ColorPage.HexTextShown | webview-ui/src/pages/color-converter/index.tsx:383-428 | clicking such a hex form shows it back exactly |
| ColorPage.InitialValid | webview-ui/src/pages/color-converter/index.tsx:366-375 | the starting state is valid: the shown forms agree |
| ColorPage.ColorChangedSpec | webview-ui/src/pages/color-converter/index.tsx:383-428 | `handleColorChange` succeeds exactly on accepted input; success shows the conversion, keeps the normalised text and pushes the hex; failure only marks the input invalid |
| ColorPage.ColorChangedValid | webview-ui/src/pages/color-converter/index.tsx:383-428 | every change keeps the page valid |
| ColorPage.InputRejectedKept | webview-ui/src/pages/color-converter/index.tsx:431-435 | rejected typing keeps the typed text and format, marked invalid |
| ColorPage.RecentColorClicked | webview-ui/src/pages/color-converter/index.tsx:383-428 | clicking a recent colour shows it and moves it to the head |
| ColorPage.RecentColorChange | webview-ui/src/pages/color-converter/index.tsx:383-428 | any hex form the page writes is accepted again when clicked |
| ColorPage.RecentHeadClicked | webview-ui/src/pages/color-converter/index.tsx:414-420 | clicking the head of the recent list leaves it as it is |
| ColorPage.ExampleChosenSpec | webview-ui/src/pages/color-converter/index.tsx:438-442 | `setExample` always succeeds and shows the example exactly |
| ColorPage.ResetSpec | webview-ui/src/pages/color-converter/index.tsx:445-447 | `resetInput` shows the starting colour and its forms again |
| ColorPage.MountedSpec | webview-ui/src/pages/color-converter/index.tsx:378-380 | once mounted, the page shows the starting colour as its only recent colour |
| ColorPage.ColorConverterPage.constructor | webview-ui/src/pages/color-converter/index.tsx:366-375 | the page starts from the initial state, which is valid |
| ColorPage.ColorConverterPage.HandleColorChange | webview-ui/src/pages/color-converter/index.tsx:383-428 | the page state becomes `ColorChanged` of the old state and stays valid |
| ColorPage.ColorConverterPage.HandleInputChange | webview-ui/src/pages/color-converter/index.tsx:431-435 | the page state becomes `InputChanged` of the old state and stays valid |
| ColorPage.ColorConverterPage.SetExample | webview-ui/src/pages/color-converter/index.tsx:438-442 | the page state becomes `ExampleChosen` for the random roll and stays valid |
| ColorPage.FocusedAsWritten | webview-ui/src/pages/color-converter/index.tsx:552-556 | as written, focusing an input moves only the editing format, so that input shows the text last typed in another |
| ColorPage.FocusShowsForeignText | webview-ui/src/pages/color-converter/index.tsx:550-556 | on the mounted page, focusing the rgb input makes it show `#FF5733` instead of `255, 87, 51` |
| ColorPage.Focused | webview-ui/src/pages/color-converter/index.tsx:550-556 | corrected: the focused input starts from its own form, refocusing the edited input keeps its text, and the colour, validity and recent list are kept |
| ColorPage.FocusKeepsDisplay | webview-ui/src/pages/color-converter/index.tsx:550-556 | corrected, a focus changes no input but the one being edited, which shows its form again, and typing after a focus does what typing alone does |
| ColorPage.ColorConverterPage.HandleFocus | webview-ui/src/pages/color-converter/index.tsx:550-556 | the page state becomes `Focused` of the old state and stays valid |
| ColorPage.ColorConverterPage.ResetInput | webview-ui/src/pages/color-converter/index.tsx:445-447 | the page state becomes `Reset` of the old state and stays valid |
| ColorPage.Mount | webview-ui/src/pages/color-converter/index.tsx:365-380 | a mounted page is valid and shows the starting colour |
| Scanning.DigitRun | webview-ui/src/pages/color-converter/index.tsx:72 | greedy `\d+` takes the longest run of digits |
| Scanning.Search | webview-ui/src/pages/color-converter/index.tsx:72-96 | a match of the unanchored pattern yields one number per field |
| Scanning.ScanRender | webview-ui/src/pages/color-converter/index.tsx:78-104 | the scanner reads back the numbers of text the normalisers write |
| Scanning.MatchesWholeRender | webview-ui/src/pages/color-converter/index.tsx:37-52 | the anchored pattern accepts the text the normalisers write |
| Strings.TrimEmptyIffAllSpaces | webview-ui/src/pages/color-converter/index.tsx:29 | `!s.trim()` holds exactly when every character is white space |
| Strings.ParseDecimalString | webview-ui/src/pages/color-converter/index.tsx:75-77 | `parseInt` of the numeral written for `n` is `n` |
| Ordering.LessTransitive | webview-ui/src/pages/dashboard/components/category-filter.tsx:21 | the string order is transitive |
| Ordering.LessTotal | webview-ui/src/pages/dashboard/components/category-filter.tsx:21 | two different strings are ordered one way or the other |
| Ordering.SortDistinct | webview-ui/src/pages/dashboard/components/category-filter.tsx:21 | `sort()` of distinct strings is strictly ascending and has the same elements |
| Ordering.SortedUnique | webview-ui/src/pages/dashboard/components/category-filter.tsx:21 | two strictly ascending lists with the same elements are equal |
| Timezones.DedupValues | webview-ui/src/pages/timestamp-converter/index.tsx:21-30 | `uniqueTimezones` has pairwise distinct values, and exactly the values of the input |
| Timezones.DedupPositions | webview-ui/src/pages/timestamp-converter/index.tsx:21-30 | each kept entry is the first input entry with its value, and first-occurrence order is kept |
| Timezones.UniqueTimezones | webview-ui/src/pages/timestamp-converter/index.tsx:21-30 | the reduce loop computes `Dedup` of the table |
| Timezones.RegionPriorityMeaning | webview-ui/src/pages/timestamp-converter/index.tsx:34-53 | the priority is that of the first table prefix the value starts with, and 99 exactly when none matches |
| Timezones.PriorityFromMeaning | webview-ui/src/pages/timestamp-converter/index.tsx:48-53 | scanning the table from an index gives the first matching prefix at or after it, or 99 |
| Timezones.GetRegionPriority | webview-ui/src/pages/timestamp-converter/index.tsx:48-53 | the for-of loop with early return computes `RegionPriority` |
| Timezones.InOrderTotal | webview-ui/src/pages/timestamp-converter/index.tsx:55-62 | the comparator orders every pair one way or the other |
| Timezones.InOrderTransitive | webview-ui/src/pages/timestamp-converter/index.tsx:55-62 | the comparator's order is transitive |
| Timezones.InsertZone | webview-ui/src/pages/timestamp-converter/index.tsx:33-63 | inserting into an ordered list keeps it ordered and adds exactly that entry |
| Timezones.SortZones | webview-ui/src/pages/timestamp-converter/index.tsx:33-63 | the sort's result is ordered by region priority and then label, and is a permutation of its input |
| Timezones.PermutationDistinct | webview-ui/src/pages/timestamp-converter/index.tsx:33-63 | reordering keeps the values distinct |
| Timezones.SortedTimezonesValues | webview-ui/src/pages/timestamp-converter/index.tsx:21-63 | `sortedTimezones` is ordered and holds each table value exactly once |
| Timezones.FilterMatching | webview-ui/src/pages/timestamp-converter/index.tsx:110-115 | an entry is kept exactly when its lower-cased label or value contains the lower-cased term |
| Timezones.FilterMatchingConcat | webview-ui/src/pages/timestamp-converter/index.tsx:110-115 | the filter keeps the list's order |
| Timezones.FilteredTimezones | webview-ui/src/pages/timestamp-converter/index.tsx:107-116 | an empty term gives the whole list; otherwise exactly the matching entries |
| Timezones.Region | webview-ui/src/pages/timestamp-converter/index.tsx:76 | `split("/")[0]` is the text before the first slash |
| Timezones.FirstWithPrefix | webview-ui/src/pages/timestamp-converter/index.tsx:77-79 | `find` gives the first entry whose value starts with the prefix, and nothing exactly when none does |
| Timezones.UserTimezoneListed | webview-ui/src/pages/timestamp-converter/index.tsx:66-92 | the chosen zone is a listed value, Asia/Shanghai or UTC |
| Timezones.UserTimezonePreference | webview-ui/src/pages/timestamp-converter/index.tsx:66-92 | an exact match wins; else a zone of the same region; else Shanghai for a Chinese name; else UTC |
| Timezones.TimezoneSelect.constructor | webview-ui/src/pages/timestamp-converter/index.tsx:95-104 | the list starts closed with an empty term and nothing chosen |
| Timezones.TimezoneSelect.HandleSelect | webview-ui/src/pages/timestamp-converter/index.tsx:145-149 | the value is reported, the list closes and the term is cleared |
| Timezones.TimezoneSelect.HandleTriggerClick | webview-ui/src/pages/timestamp-converter/index.tsx:151-153 | the list toggles open |
| Timezones.TimezoneSelect.HandleSearchChange | webview-ui/src/pages/timestamp-converter/index.tsx:155-157 | the term becomes the typed text, and nothing else changes |
| Timezones.TimezoneSelect.ClearSearch | webview-ui/src/pages/timestamp-converter/index.tsx:159-162 | the term is cleared |
| Timezones.TimezoneSelect.HandleClickOutside | webview-ui/src/pages/timestamp-converter/index.tsx:122-130 | the list closes and the term is cleared |
| Timezones.TimezoneSelect.HandleSearchKeyDown | webview-ui/src/pages/timestamp-converter/index.tsx:164-170 | Escape only closes; Enter selects the first shown entry when there is one; otherwise nothing changes |
| Timezones.EnterPicksMatch | webview-ui/src/pages/timestamp-converter/index.tsx:164-170 | what Enter picks is a listed entry matching the term |
| Timestamp.ParseIntDigits | webview-ui/src/pages/timestamp-converter/index.tsx:386-389 | `parseInt` of a digit string is its decimal value |
| Timestamp.ParseIntNegative | webview-ui/src/pages/timestamp-converter/index.tsx:297-298 | `parseInt` of a minus sign and digits is the negated decimal value |
| Timestamp.ParseIntToString | webview-ui/src/pages/timestamp-converter/index.tsx:271-277 | `parseInt(n.toString()) == n` for every integer |
| Timestamp.FromMillis | webview-ui/src/pages/timestamp-converter/index.tsx:406-409 | milliseconds to seconds is floor division by 1000 |
| Timestamp.UnitRoundTrip | webview-ui/src/pages/timestamp-converter/index.tsx:406-409 | whole seconds (or milliseconds) survive the trip to milliseconds and back |
| Timestamp.BlankTimestampClears | webview-ui/src/pages/timestamp-converter/index.tsx:282-294 | a blank timestamp clears the date and all seven results, and nothing else |
| Timestamp.BlankDateClears | webview-ui/src/pages/timestamp-converter/index.tsx:377-380 | a blank date clears the timestamp, and nothing else |
| Timestamp.TimestampTextRendered | webview-ui/src/pages/timestamp-converter/index.tsx:296-355 | a valid timestamp text is rendered at the instant it names in the chosen unit |
| Timestamp.DigitsRoundTrip | webview-ui/src/pages/timestamp-converter/index.tsx:386-412 | digits typed as a date read back as the same number, leading zeros dropped |
| Timestamp.CurrentSecondRendered | webview-ui/src/pages/timestamp-converter/index.tsx:271-277 | "now" in seconds shows `floor(now / 1000)` and renders the start of the current second |
| Timestamp.DateErrorExactly | webview-ui/src/pages/timestamp-converter/index.tsx:375-417 | the error text appears exactly when the date cannot be read |
| Timestamp.TimestampPage.constructor | webview-ui/src/pages/timestamp-converter/index.tsx:251-268 | the page opens in seconds, timestamp to date, on the user's zone, with empty texts |
| Timestamp.TimestampPage.SetUnit | webview-ui/src/pages/timestamp-converter/index.tsx:251-268 | only the unit changes |
| Timestamp.TimestampPage.SetTimezone | webview-ui/src/pages/timestamp-converter/index.tsx:251-268 | only the timezone changes |
| Timestamp.TimestampPage.SetDirection | webview-ui/src/pages/timestamp-converter/index.tsx:251-268 | only the direction changes |
| Timestamp.TimestampPage.SetTimestamp | webview-ui/src/pages/timestamp-converter/index.tsx:251-268 | only the timestamp text changes |
| Timestamp.TimestampPage.SetDate | webview-ui/src/pages/timestamp-converter/index.tsx:251-268 | only the date text changes |
| Timestamp.TimestampPage.GetCurrentTimestamp | webview-ui/src/pages/timestamp-converter/index.tsx:271-277 | the state becomes `CurrentTimestampStep` of the old state |
| Timestamp.TimestampPage.HandleTimestampToDate | webview-ui/src/pages/timestamp-converter/index.tsx:280-372 | the state becomes `TimestampToDateStep` of the old state |
| Timestamp.TimestampPage.HandleDateToTimestamp | webview-ui/src/pages/timestamp-converter/index.tsx:375-417 | the state becomes `DateToTimestampStep` of the old state |
| Timestamp.TimestampPage.HandleConversion | webview-ui/src/pages/timestamp-converter/index.tsx:420-432 | the step for the current direction runs on the current texts |
| Timestamp.ConversionSettles | webview-ui/src/pages/timestamp-converter/index.tsx:420-438 | running the conversion again on its own result changes nothing, so the effects' re-renders stop after one run |
| Timestamp.ClockRead | webview-ui/src/pages/timestamp-converter/index.tsx:435-442 | after the clock effect and the conversion it sets off: timestamp to date shows the clock reading and its rendering, date to timestamp converts the date text over the reading; unit, zone and direction kept; the result is settled |
| Timestamp.InputEdited | webview-ui/src/pages/timestamp-converter/index.tsx:583-592 | typing goes to the timestamp or the date, whichever the direction reads, and the other side is its conversion; the result is settled |
| Timestamp.TimezoneChanged | webview-ui/src/pages/timestamp-converter/index.tsx:444-448 | a new zone keeps the text being read and converts it again; the result is settled |
| Timestamp.ClockReadShowsSecond | webview-ui/src/pages/timestamp-converter/index.tsx:271-277 | mounting, Now, or a switch of unit or direction in seconds shows `floor(now / 1000)` rendered at the start of that second |
| Timestamp.ClockIgnoredOnDateSide | webview-ui/src/pages/timestamp-converter/index.tsx:435-442 | in date to timestamp the clock reading never shows: Now leaves a settled page unchanged, and the result does not depend on the clock |
| Timestamp.EditedTimestampRendered | webview-ui/src/pages/timestamp-converter/index.tsx:583-592 | a number typed in timestamp to date is rendered at the instant it names |
| Timestamp.EditedDigitsRoundTrip | webview-ui/src/pages/timestamp-converter/index.tsx:583-592 | digits typed in date to timestamp come back as the same number, leading zeros dropped |
| Timestamp.TimestampPage.ReadClock | webview-ui/src/pages/timestamp-converter/index.tsx:435-442 | the state becomes `ClockRead` of the old state: the mount effect and the Now button |
| Timestamp.TimestampPage.ChangeUnit | webview-ui/src/pages/timestamp-converter/index.tsx:555-560 | the state becomes `ClockRead` of the old state with the new unit |
| Timestamp.TimestampPage.ChangeDirection | webview-ui/src/pages/timestamp-converter/index.tsx:525-531 | the state becomes `ClockRead` of the old state with the new direction |
| Timestamp.TimestampPage.ChangeTimezone | webview-ui/src/pages/timestamp-converter/index.tsx:444-448 | the state becomes `TimezoneChanged` of the old state |
| Timestamp.TimestampPage.EditInput | webview-ui/src/pages/timestamp-converter/index.tsx:583-592 | the state becomes `InputEdited` of the old state |
| ImagePage.EncodingFor | webview-ui/src/pages/image-converter/index.tsx:177-201 | jpeg, webp and avif get their MIME type and the quality; gif and bmp get theirs without one; anything else is png |
| ImagePage.ExtensionUnique | webview-ui/src/pages/image-converter/index.tsx:84 | a name has at most one final extension |
| ImagePage.StripExtension | webview-ui/src/pages/image-converter/index.tsx:84 | the final `.ext` (no `.` or `/` in it) is removed when there is one, and the name is kept otherwise |
| ImagePage.Scaled | webview-ui/src/pages/image-converter/index.tsx:251-260 | `Math.round(value * other / base)` is within one half of the exact quotient |
| ImagePage.ScaledExact | webview-ui/src/pages/image-converter/index.tsx:248-263 | scaling by the ratio a dimension already has gives the other dimension exactly |
| ImagePage.WidthChanged | webview-ui/src/pages/image-converter/index.tsx:248-254 | the width is set; with the ratio locked and known, the height is the rounded scaled value; otherwise the height is kept |
| ImagePage.HeightChanged | webview-ui/src/pages/image-converter/index.tsx:257-263 | the mirror image for the height |
| ImagePage.DimensionsReset | webview-ui/src/pages/image-converter/index.tsx:266-269 | the loaded size is restored |
| ImagePage.OriginalWidthKeepsHeight | webview-ui/src/pages/image-converter/index.tsx:248-254 | typing the original width with a locked ratio gives the original height |
| ImagePage.TransformationsReset | webview-ui/src/pages/image-converter/index.tsx:272-276 | rotation 0 and no flips, nothing else touched |
| ImagePage.Rotated | webview-ui/src/pages/image-converter/index.tsx:676-690 | a quarter turn either way, without wrapping |
| ImagePage.RotateBack | webview-ui/src/pages/image-converter/index.tsx:676-690 | one turn each way is no turn |
| ImagePage.Flipped | webview-ui/src/pages/image-converter/index.tsx:692-707 | each flip button toggles its flag only |
| ImagePage.FlipTwice | webview-ui/src/pages/image-converter/index.tsx:692-707 | flipping twice is the identity |
| ImagePage.FileUploaded | webview-ui/src/pages/image-converter/index.tsx:71-103 | no file does nothing; a non-image raises a toast; an image is shown under its name without extension, untransformed, at its decoded size, or at the previous image's size when it does not decode |
| ImagePage.UploadedUntransformed | webview-ui/src/pages/image-converter/index.tsx:71-103 | a freshly decoded image is shown at its own size with no transformation |
| ImagePage.UndecodedKeepsSize | webview-ui/src/pages/image-converter/index.tsx:80-100 | an image file that does not decode is shown untransformed, without a toast, at the previous image's dimensions |
| ImagePage.UrlEntered | webview-ui/src/pages/image-converter/index.tsx:106-125 | blank text does nothing; otherwise the image is named remote-image with an unknown size, and its size is loaded or a toast is raised |
| ImagePage.Processed | webview-ui/src/pages/image-converter/index.tsx:128-233 | without an image nothing happens; otherwise the selected encoding is requested and the result or a failure toast is shown |
| ImagePage.Cleared | webview-ui/src/pages/image-converter/index.tsx:430-446 | no image, all sizes zero, no transformation; the output settings stay |
| ImagePage.ClearedIdle | webview-ui/src/pages/image-converter/index.tsx:430-446 | clearing is idempotent, and after it processing does nothing |
| ImagePage.Reprocessed | webview-ui/src/pages/image-converter/index.tsx:465-477 | when a watched value changed and there is an image, the current settings' encoding is requested and its result or a failure toast shown; otherwise the state is kept; the watched values never change |
| ImagePage.ProcessingSettles | webview-ui/src/pages/image-converter/index.tsx:128-233 | processing changes none of the values the effect watches, so it does not set itself off again |
| ImagePage.NoStaleOutput | webview-ui/src/pages/image-converter/index.tsx:128-233 | after a watched change, a successful encoding is shown and the last encoding requested matches the current format and quality |
| ImagePage.ClearedNotProcessed | webview-ui/src/pages/image-converter/index.tsx:430-446 | the effect after clearing changes nothing |
| ImagePage.TransformReprocesses | webview-ui/src/pages/image-converter/index.tsx:465-477 | every rotation and flip changes a watched value |
| ImagePage.ImageFormatPage.constructor | webview-ui/src/pages/image-converter/index.tsx:48-64 | the page starts with no image, as png at the default quality, with the ratio locked |
| ImagePage.ImageFormatPage.HandleWidthChange | webview-ui/src/pages/image-converter/index.tsx:248-254 | the state becomes `WidthChanged` of the old state |
| ImagePage.ImageFormatPage.HandleHeightChange | webview-ui/src/pages/image-converter/index.tsx:257-263 | the state becomes `HeightChanged` of the old state |
| ImagePage.ImageFormatPage.ResetDimensions | webview-ui/src/pages/image-converter/index.tsx:266-269 | the state becomes `DimensionsReset` of the old state |
| ImagePage.ImageFormatPage.ResetTransformations | webview-ui/src/pages/image-converter/index.tsx:272-276 | the state becomes `TransformationsReset` of the old state |
| ImagePage.ImageFormatPage.Rotate | webview-ui/src/pages/image-converter/index.tsx:676-690 | the state becomes `Rotated` of the old state |
| ImagePage.ImageFormatPage.Flip | webview-ui/src/pages/image-converter/index.tsx:692-707 | the state becomes `Flipped` of the old state |
| ImagePage.ImageFormatPage.HandleFileUpload | webview-ui/src/pages/image-converter/index.tsx:71-103 | the state becomes `FileUploaded` of the old state |
| ImagePage.ImageFormatPage.HandleImageUrlInput | webview-ui/src/pages/image-converter/index.tsx:106-125 | the state becomes `UrlEntered` of the old state |
| ImagePage.ImageFormatPage.ProcessImage | webview-ui/src/pages/image-converter/index.tsx:128-233 | the state becomes `Processed` of the old state |
| ImagePage.ImageFormatPage.ClearAll | webview-ui/src/pages/image-converter/index.tsx:430-446 | the state becomes `Cleared` of the old state |
| ImagePage.ImageFormatPage.SetOptions | webview-ui/src/pages/image-converter/index.tsx:753-860 | only the format, quality and ratio lock change |
| ImagePage.ImageFormatPage.RunEffect | webview-ui/src/pages/image-converter/index.tsx:465-477 | the state becomes `Reprocessed` from the given earlier state |
| ImagePage.ImageFormatPage.ChangeWidth | webview-ui/src/pages/image-converter/index.tsx:248-254 | the state becomes `WidthChanged` followed by the processing effect |
| ImagePage.ImageFormatPage.ChangeHeight | webview-ui/src/pages/image-converter/index.tsx:257-263 | the state becomes `HeightChanged` followed by the processing effect |
| ImagePage.ImageFormatPage.RestoreDimensions | webview-ui/src/pages/image-converter/index.tsx:266-269 | the state becomes `DimensionsReset` followed by the processing effect |
| ImagePage.ImageFormatPage.RestoreTransformations | webview-ui/src/pages/image-converter/index.tsx:272-276 | the state becomes `TransformationsReset` followed by the processing effect |
| ImagePage.ImageFormatPage.Turn | webview-ui/src/pages/image-converter/index.tsx:676-690 | the state becomes `Rotated` followed by the processing effect |
| ImagePage.ImageFormatPage.Mirror | webview-ui/src/pages/image-converter/index.tsx:692-707 | the state becomes `Flipped` followed by the processing effect |
| ImagePage.ImageFormatPage.Upload | webview-ui/src/pages/image-converter/index.tsx:71-103 | the state becomes `FileUploaded` followed by the processing effect |
| ImagePage.ImageFormatPage.EnterUrl | webview-ui/src/pages/image-converter/index.tsx:106-125 | the state becomes `UrlEntered` followed by the processing effect |
| ImagePage.ImageFormatPage.ChangeOptions | webview-ui/src/pages/image-converter/index.tsx:753-860 | the format, quality and ratio lock change, followed by the processing effect |
| ImagePage.ImageFormatPage.Clear | webview-ui/src/pages/image-converter/index.tsx:430-446 | the state becomes `Cleared`; the effect it sets off changes nothing |
| Uuid.VariantNibble | webview-ui/src/pages/uuid-generator/index.tsx:17 | `(r & 0x3) \| 0x8` is one of 8 to 11 and keeps the low two bits |
| Uuid.Fill | webview-ui/src/pages/uuid-generator/index.tsx:15-19 | placeholders become lower-case hex digits, `y` becomes one of 8, 9, a, b, and every other character is copied |
| Uuid.FallbackShape | webview-ui/src/pages/uuid-generator/index.tsx:15-19 | given the template's 31 nibbles, a fallback identifier is 36 long, with dashes at 8, 13, 18, 23, a `4` at 14, a variant digit at 19 and hex elsewhere |
| Uuid.FallbackSingleLine | webview-ui/src/pages/uuid-generator/index.tsx:15-19 | a fallback identifier holds no line break |
| Uuid.TemplateLayout | webview-ui/src/pages/uuid-generator/index.tsx:15-18 | the template has the 8-4-4-4-12 layout with the version digit in place |
| Uuid.LayoutPlaceholders | webview-ui/src/pages/uuid-generator/index.tsx:15-18 | a template with the v4 layout holds 31 placeholders, so the fallback reads 31 nibbles |
| Uuid.GenerateUuid | webview-ui/src/pages/uuid-generator/index.tsx:9-20 | an identifier made by the fallback is 36 long with the version digit `4` at 14 |
| Uuid.ClampCount | webview-ui/src/pages/uuid-generator/index.tsx:27 | the count lies in [1, 1000]: floor of an in-range count, 1000 above, 1 for zero, NaN or below |
| Uuid.Lines | webview-ui/src/pages/uuid-generator/index.tsx:28-31 | `split("\n")` gives at least one piece |
| Uuid.JoinThenLines | webview-ui/src/pages/uuid-generator/index.tsx:28-31 | joining line-free items with line breaks and splitting gives them back |
| Uuid.Uuids | webview-ui/src/pages/uuid-generator/index.tsx:28-30 | one identifier per draw, in order |
| Uuid.UuidGeneratorPage.constructor | webview-ui/src/pages/uuid-generator/index.tsx:23-24 | the count starts at 1 and the output empty |
| Uuid.UuidGeneratorPage.SetCount | webview-ui/src/pages/uuid-generator/index.tsx:69-70 | only the count changes |
| Uuid.UuidGeneratorPage.SetOutput | webview-ui/src/pages/uuid-generator/index.tsx:84-86 | only the output changes |
| Uuid.UuidGeneratorPage.HandleGenerate | webview-ui/src/pages/uuid-generator/index.tsx:26-32 | the output is the clamped number of identifiers joined by line breaks; the count is kept |
| Uuid.FallbackOutputLines | webview-ui/src/pages/uuid-generator/index.tsx:26-32 | with fallback draws the output has exactly the clamped count of lines, the identifiers |
| Translator.AsLanguages | webview-ui/src/pages/translator/index.tsx:39 | each service language becomes a choice of its code and name, in order |
| Translator.LanguagesAfterReply | webview-ui/src/pages/translator/index.tsx:32-50 | the list is replaced by Auto-detect and the service's languages only when mounted and the reply is a non-empty array with a code; otherwise it is kept |
| Translator.TargetOptions | webview-ui/src/pages/translator/index.tsx:162-164 | the target menu is every language but `auto` |
| Translator.TargetOptionsConcat | webview-ui/src/pages/translator/index.tsx:162-164 | the target filter keeps the list's order |
| Translator.TargetOptionsBehindAuto | webview-ui/src/pages/translator/index.tsx:162-164 | behind Auto-detect, an `auto`-free list is the whole target menu |
| Translator.TargetOptionsNoAuto | webview-ui/src/pages/translator/index.tsx:162-164 | a list without `auto` is its own target menu |
| Translator.OutputOf | webview-ui/src/pages/translator/index.tsx:76-84 | the output is the first non-empty result field; a refused request or a failure gives an `Error: ` text |
| Translator.RefusedReportsError | webview-ui/src/pages/translator/index.tsx:76-80 | a refused request always shows a non-empty error |
| Translator.Swapped | webview-ui/src/pages/translator/index.tsx:89-97 | source and target swap (`auto` becomes `en`), and a non-blank output moves into the input |
| Translator.SwapTwice | webview-ui/src/pages/translator/index.tsx:89-97 | swapping twice restores the languages when neither is `auto` |
| Translator.Translated | webview-ui/src/pages/translator/index.tsx:53-87 | blank input only raises a toast; otherwise one request with the input and languages, and the reply's output |
| Translator.TranslatorPage.constructor | webview-ui/src/pages/translator/index.tsx:9-29 | the page starts from the default languages, auto to English, with empty texts |
| Translator.TranslatorPage.LoadLanguages | webview-ui/src/pages/translator/index.tsx:32-50 | only the language list changes, to `LanguagesAfterReply` |
| Translator.TranslatorPage.HandleSwap | webview-ui/src/pages/translator/index.tsx:89-97 | the state becomes `Swapped` of the old state |
| Translator.TranslatorPage.Translate | webview-ui/src/pages/translator/index.tsx:53-87 | the state becomes `Translated` of the old state |
| Translator.TranslatorPage.ClearAll | webview-ui/src/pages/translator/index.tsx:108-112 | both texts are emptied and one info toast is added |
| Translator.TranslatorPage.HandleCopyOutput | webview-ui/src/pages/translator/index.tsx:99-106 | a success or an error toast is added, nothing else |
| VscodeApi.ToastCommand | webview-ui/src/lib/vscode.ts:76-101 | info and success post the information command, warning and error their own |
| VscodeApi.VSCodeAPIWrapper.constructor | webview-ui/src/lib/vscode.ts:12-21 | the wrapper keeps whatever state the host and the browser hold, and nothing is posted yet |
| VscodeApi.VSCodeAPIWrapper.PostMessage | webview-ui/src/lib/vscode.ts:31-37 | inside VS Code the message goes to the host, outside it to the console |
| VscodeApi.VSCodeAPIWrapper.GetState | webview-ui/src/lib/vscode.ts:47-54 | the host's state inside VS Code, the stored one outside |
| VscodeApi.VSCodeAPIWrapper.SetState | webview-ui/src/lib/vscode.ts:67-74 | the state is kept where `getState` reads it and returned |
| VscodeApi.VSCodeAPIWrapper.Toast | webview-ui/src/lib/vscode.ts:76-101 | one message with the toast's command and text |
| VscodeApi.SetThenGet | webview-ui/src/lib/vscode.ts:47-74 | a state read back after it was set is that state |
| VscodeApi.DropTrailingSlashes | webview-ui/src/lib/vscode.ts:140 | every trailing slash is removed, and only those |
| VscodeApi.DropLeadingSlashes | webview-ui/src/lib/vscode.ts:140 | every leading slash is removed, and only those |
| VscodeApi.ImageUriKept | webview-ui/src/lib/vscode.ts:125-152 | outside VS Code, or for a relative path without an asset root, the source is kept |
| VscodeApi.ImageUriLegacy | webview-ui/src/lib/vscode.ts:144-147 | without an asset root an absolute path loses its first slash behind `vscode-resource:` |
| VscodeApi.ImageUriUnderRoot | webview-ui/src/lib/vscode.ts:127-141 | with an asset root: the root without trailing slashes, one slash, and the path without leading slashes |
| TreeProvider.ParentIn | src/providers/toolbox-tree-data-provider.ts:33-40 | a parent exists exactly when some root has a child with the id, and it is such a root |
| TreeProvider.LoadedTree | src/providers/toolbox-tree-data-provider.ts:49-67 | one root category with one tool; the tool's parent is that category, which has no parent |
| TreeProvider.ToolboxTreeDataProvider.constructor | src/providers/toolbox-tree-data-provider.ts:17-19 | the tree is loaded when the provider is made |
| TreeProvider.ToolboxTreeDataProvider.GetTreeItem | src/providers/toolbox-tree-data-provider.ts:21-23 | an element is its own tree item |
| TreeProvider.ToolboxTreeDataProvider.ResolveTreeItem | src/providers/toolbox-tree-data-provider.ts:41-47 | resolving adds nothing to the element |
| TreeProvider.ToolboxTreeDataProvider.LoadToolboxData | src/providers/toolbox-tree-data-provider.ts:49-67 | the tree becomes the loaded tree |
| TreeProvider.ToolboxTreeDataProvider.GetChildren | src/providers/toolbox-tree-data-provider.ts:24-32 | the roots without an element, else its children or none |
| TreeProvider.ToolboxTreeDataProvider.GetParent | src/providers/toolbox-tree-data-provider.ts:33-40 | the search loop returns `ParentIn` of the tree |
| TreeProvider.ParentIsFirst | src/providers/toolbox-tree-data-provider.ts:33-40 | the root at the first index with a matching child is the parent |
| Icon.SvgFileName | src/utils/icon.ts:16 | the name gets `.svg` appended unless it already ends in it |
| Icon.SvgFileNameIdempotent | src/utils/icon.ts:16 | naming the file twice is naming it once |
| Icon.GetIconPath | src/utils/icon.ts:10-41 | both paths are `media/icons/<path>/<light or dark>/<file>` under the extension, differing only in that segment |
| Icon.GetToolIconPath | src/utils/icon.ts:3-8 | the icon paths under `media/icons/tools` |
| ToolsStore.InCategory | webview-ui/src/stores/tools.ts:11 | exactly the tools of the category are kept |
| ToolsStore.InCategoryConcat | webview-ui/src/stores/tools.ts:11 | the category filter keeps the list's order |
| ToolsStore.FilteredTools | webview-ui/src/stores/tools.ts:6-12 | `all` gives every tool; otherwise exactly that category's tools, none for an unused category |
| ToolsStore.InitialFilterShowsAll | webview-ui/src/stores/tools.ts:4-12 | the opening dashboard lists every shipped tool |
| CategoryFilter.Capitalize | webview-ui/src/pages/dashboard/components/category-filter.tsx:24 | the first letter is upper-cased and the rest kept |
| CategoryFilter.CollectCategories | webview-ui/src/pages/dashboard/components/category-filter.tsx:10-17 | each non-empty category once, exactly the ones the tools use |
| CategoryFilter.Buttons | webview-ui/src/pages/dashboard/components/category-filter.tsx:22-25 | one button per id, titled with its capitalised id |
| CategoryFilter.GenerateCategoriesFromTools | webview-ui/src/pages/dashboard/components/category-filter.tsx:9-27 | All Tools first, then one button per used category in ascending order |
| CategoryFilter.CategoryListUnique | webview-ui/src/pages/dashboard/components/category-filter.tsx:9-27 | that promise fixes the list |
| CategoryFilter.ShippedUsedCategories | webview-ui/src/data/tools.ts:3-45 | the shipped tools use exactly the converters and graphics categories |
| CategoryFilter.ShippedButtonsKeepPromises | webview-ui/src/pages/dashboard/components/category-filter.tsx:9-27 | All Tools, Converters, Graphics keeps the promise for the shipped tools |
| CategoryFilter.ShippedCategories | webview-ui/src/data/tools.ts:3-45 | with the shipped tools the buttons are All Tools, Converters, Graphics |
| ToolboxPanels.ThemeName | src/panels/toolbox-panel.ts:143-156 | the light kinds are `light`, every other kind is `dark` |
| ToolboxPanels.Dispatch | src/panels/toolbox-panel.ts:233-246 | the three show commands and `getTheme` are handled, and every other command is ignored |
| ToolboxPanels.ToastReachesWindow | src/panels/toolbox-panel.ts:233-242 | every webview toast reaches the window as the matching notification |
| ToolboxPanels.ReversedPermutes | src/panels/toolbox-panel.ts:120-125 | popping until empty releases every disposable once, the last pushed first |
| ToolboxPanels.ToolboxPanel.constructor | src/panels/toolbox-panel.ts:34-65 | the close, message and theme listeners are registered, the theme is posted, and the initial data is written |
| ToolboxPanels.ToolboxPanel.UpdateTheme | src/panels/toolbox-panel.ts:128-141 | one `themeChanged` message with the theme's name and kind |
| ToolboxPanels.Workbench.Render | src/panels/toolbox-panel.ts:73-107 | an open panel is only revealed, and told to navigate for a non-empty route; otherwise one new panel becomes the current one |
| ToolboxPanels.Workbench.Dispose | src/panels/toolbox-panel.ts:113-126 | the slot is emptied, the panel closed, and every disposable popped and released |
| ToolboxPanels.Workbench.ChangeTheme | src/panels/toolbox-panel.ts:60-65 | the registered theme listener records and posts the new theme; the panel's data, reveals, disposables and state are kept |
| ToolboxPanels.Workbench.HandleMessage | src/panels/toolbox-panel.ts:226-251 | show commands forward the text at their severity, `getTheme` re-posts the theme, and anything else does nothing; the panel's data, reveals, disposables and state are kept |
| ToolboxPanels.RenderTwice | src/panels/toolbox-panel.ts:73-107 | rendering twice creates one panel and reveals it once |
| ToolboxPanels.OpenThenClose | src/panels/toolbox-panel.ts:34-126 | closing a panel releases the theme, message and close listeners, in that order |

## Left out

- JavaScript doubles. Colour arithmetic is exact (`real`), so `Math.round` of a value that a
  double would round differently at a half is not modelled. Integers are unbounded, so
  `parseInt` of more than 15 digits, and timestamps beyond 2^53, are exact here where JavaScript
  loses precision.
- `ConvertAllFormats` is proved for text the page's normalisers produce. Raw text outside the
  clamped ranges can make `rgbToHsl` divide by zero (for example at `510, 0, 0`) and print `NaN`
  or `Infinity` in JavaScript. `rgbToCmyk` never divides by zero, because it returns before
  dividing by `1 - k` when `k` is 1, but on such text it gives components outside [0, 100]. The
  model only records that such input is not in gamut.
- Case mapping (`toUpperCase`, `toLowerCase`) is modelled on ASCII letters only.
- `localeCompare` and the default `sort()` are modelled as code-unit order, without locale
  collation.
- The timezone table is an input sequence; its data file is not part of this model.
- The timestamp page's `Date` parsing is the `parseDate` parameter, and its `Intl` formatting (with
  the fallback for an invalid timezone) is the `render` parameter, which formats in the state's
  timezone.
- The timestamp page's effects are modelled by the state they settle in. The order in which React
  runs the three effects within one commit, and the states between re-renders, are not modelled.
  The third effect's `if (timestamp)` guard adds nothing to that state, because the first effect
  runs the same conversion.
- The image page's processing effect is modelled once per handler, on the state the handler
  commits. A file upload or URL entry that sets the size after decoding sets the effect off twice
  in the browser, once after the read and once after the decode; the model runs it once, after
  both, with the outcome of that last run.
- Timezones.SortZones: the sort is modelled on a sequence value, not in place, by an insertion sort
  the engine need not use. It is proved ordered and a permutation, but stability is not stated.
- Randomness (`crypto.randomUUID`, `Math.random`) is given as parameters: the draws, the nibbles and
  the example roll.
- Network, clipboard, file reading, canvas drawing and download links are left out. Their outcomes
  are parameters: translation replies, copy results, loaded sizes, encoding outcomes.
- `formatFileSize` and `getSizeReduction` are left out because they depend on `Math.log` and
  `toFixed`.
- The JSON-YAML pages are thin wrappers over a YAML library that is not part of this model.
- JSX rendering and the purely presentational components are left out. So are the asynchronous
  intermediate states of a handler (for example `loading` while a request is awaited): each
  handler is modelled by the state it commits.
- VscodeApi.VSCodeAPIWrapper.SetState: the browser fallback's JSON round trip through
  `localStorage` is modelled as storing the value itself.
- Icon.GetIconPath: the `catch` branch is not modelled, because `Uri.joinPath` is assumed not to
  throw.
- ToolboxPanels.Workbench.Dispose: closing the panel fires its own close event, which calls
  `dispose` again. That re-entry is not modelled; its net effect is the same, because every
  disposable is popped and released exactly once either way.
- ToolboxPanels.ToolboxPanel.constructor: the HTML text (nonce, asset URIs and the
  Content-Security-Policy) is not modelled; only its initial data is.
- The `_updateTheme` guard for a missing panel is not modelled, because the panel is always set
  by the constructor.
- Item labels of the data model are named `title`, because `label` is a reserved word in Dafny.

## Findings

| source | as written | input that shows it | evidently intended | confidence | as-written member | corrected member |
|---|---|---|---|---|---|---|
| webview-ui/src/pages/color-converter/index.tsx:550-556 | each input's `onFocus` sets only `editingFormat`, and an input shows `editingValue` while its format is the editing one, so the focused input shows the text last typed in another format | mount the page, then focus the rgb input: it shows `#FF5733` instead of `255, 87, 51` | the focused input keeps showing its own form until something is typed in it | not executed; high | ColorPage.FocusShowsForeignText | ColorPage.Focused |
