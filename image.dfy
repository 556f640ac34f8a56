/**
 * The image format converter page: the size, rotation and flip settings the canvas draws with, the
 * encoding each output format asks the canvas for, and what loading or clearing an image resets.
 * Drawing, encoding and the clipboard are the browser's; their results are parameters.
 */
module ImagePage {
  import opened Options
  import opened Strings
  import opened VscodeApi

  // ---------------------------------------------------------------- output encoding

  /** The type and quality handed to `canvas.toBlob`; `quality` is absent for lossless formats. */
  datatype Encoding = Encoding(mimeType: string, quality: Option<real>)

  /**
   * The format switch: jpeg, webp and avif carry the quality setting, gif and bmp do not, and every
   * other choice falls back to png without one.
   */
  function EncodingFor(format: string, quality: real): (r: Encoding)
    ensures format in ["jpeg", "webp", "avif", "gif", "bmp"] ==> r.mimeType == "image/" + format
    ensures format !in ["jpeg", "webp", "avif", "gif", "bmp"] ==> r.mimeType == "image/png"
    ensures r.quality == if format in ["jpeg", "webp", "avif"] then Some(quality) else None
    ensures StartsWith(r.mimeType, "image/")
  {
    match format
    case "jpeg" => Encoding("image/jpeg", Some(quality))
    case "webp" => Encoding("image/webp", Some(quality))
    case "gif" => Encoding("image/gif", None)
    case "bmp" => Encoding("image/bmp", None)
    case "avif" => Encoding("image/avif", Some(quality))
    case _ => Encoding("image/png", None)
  }

  // ---------------------------------------------------------------- file names

  /** `.` at `j` starts a final extension of `name`: at least one character, no `.` or `/` in it. */
  predicate ExtensionAt(name: string, j: int) {
    0 <= j < |name| - 1 && name[j] == '.' && forall k | j < k < |name| :: name[k] != '.' && name[k] != '/'
  }

  /** A name has at most one final extension. */
  lemma ExtensionUnique(name: string, i: int, j: int)
    requires ExtensionAt(name, i) && ExtensionAt(name, j)
    ensures i == j
  {
  }

  /** How many characters at the end of `s` are neither `.` nor `/`. */
  function TailRun(s: string): (n: nat)
    ensures n <= |s| && forall k | |s| - n <= k < |s| :: s[k] != '.' && s[k] != '/'
    ensures n < |s| ==> s[|s| - n - 1] == '.' || s[|s| - n - 1] == '/'
  {
    if s == [] || s[|s| - 1] == '.' || s[|s| - 1] == '/' then 0
    else
      var n := TailRun(s[..|s| - 1]);
      assert forall k | |s| - 1 - n <= k < |s| - 1 :: s[k] == s[..|s| - 1][k];
      n + 1
  }

  /** Without a `.` just before its final run, a name has no final extension. */
  lemma NoExtension(name: string)
    requires var n := TailRun(name); !(0 < n < |name| && name[|name| - n - 1] == '.')
    ensures forall j :: !ExtensionAt(name, j)
  {
    var n := TailRun(name);
    var m := |name| - n - 1;
    forall j | 0 <= j < |name| - 1 && name[j] == '.'
      ensures exists k | j < k < |name| :: name[k] == '.' || name[k] == '/'
    {
      if j < m {
        assert name[m] == '.' || name[m] == '/';
      }
    }
  }

  /** `name.replace(/\.[^/.]+$/, "")`: the final extension removed, if the name has one. */
  function StripExtension(name: string): (r: string)
    ensures forall j | ExtensionAt(name, j) :: r == name[..j]
    ensures (forall j :: !ExtensionAt(name, j)) ==> r == name
  {
    var n := TailRun(name);
    if 0 < n < |name| && name[|name| - n - 1] == '.' then
      var j := |name| - n - 1;
      assert ExtensionAt(name, j);
      forall i | ExtensionAt(name, i)
        ensures i == j
      {
        ExtensionUnique(name, i, j);
      }
      name[..j]
    else
      NoExtension(name);
      name
  }

  // ---------------------------------------------------------------- dimensions

  /**
   * `Math.round(value * other / base)`: the quotient plus one half, rounded down, written as an
   * integer division by `2 * base` (Dafny's `/` rounds down for a positive divisor).
   */
  function Scaled(value: int, other: int, base: int): (r: int)
    requires base > 0
    ensures -base < 2 * (r * base - value * other) <= base
  {
    var p := value * other;
    var r := (2 * p + base) / (2 * base);
    var rem := (2 * p + base) % (2 * base);
    assert 2 * p + base == r * (2 * base) + rem && 0 <= rem < 2 * base;
    assert r * (2 * base) == 2 * (r * base);
    r
  }

  /** A multiple of `b` within half of `b` of zero is zero. */
  lemma SmallMultiple(k: int, b: int)
    requires b > 0 && -b < 2 * (k * b) <= b
    ensures k == 0
  {
  }

  /** Scaling a dimension by the ratio it already has gives the other one back exactly. */
  lemma ScaledExact(value: int, other: int, base: int, q: int)
    requires base > 0 && value * other == q * base
    ensures Scaled(value, other, base) == q
  {
    var r := Scaled(value, other, base);
    assert r * base - value * other == (r - q) * base;
    SmallMultiple(r - q, base);
  }

  // ---------------------------------------------------------------- the page

  /** The uploaded file: its name, MIME type and size in bytes. */
  datatype UploadedFile = UploadedFile(name: string, fileType: string, size: int)

  /** The outcome of `processImage` past drawing: a blob with its URL and size, no blob, or a failure. */
  datatype ProcessOutcome = Encoded(url: string, size: int) | NoBlob | ProcessFailed

  datatype Notice = Notice(kind: ToastKind, text: string)

  datatype ImageState = ImageState(
    selectedFormat: string, quality: real, maintainAspectRatio: bool,
    width: int, height: int, originalWidth: int, originalHeight: int,
    rotation: int, flipHorizontal: bool, flipVertical: bool,
    imageUrl: string, imageName: string, isProcessing: bool,
    convertedImageUrl: string, convertedImageSize: int, originalImageSize: int,
    encodings: seq<Encoding>, notices: seq<Notice>)

  const InitialState: ImageState := ImageState(
    "png", 0.8, true, 0, 0, 0, 0, 0, false, false, "", "", false, "", 0, 0, [], [])

  /** Both original dimensions are known, so a locked ratio can be kept. */
  predicate RatioKnown(s: ImageState) {
    s.maintainAspectRatio && s.originalWidth > 0 && s.originalHeight > 0
  }

  /** `handleWidthChange`: the width, and with a locked ratio the height that keeps it. */
  function WidthChanged(s: ImageState, value: int): (r: ImageState)
    ensures r.width == value
    ensures RatioKnown(s) ==>
              -s.originalWidth < 2 * (r.height * s.originalWidth - value * s.originalHeight) <= s.originalWidth
    ensures !RatioKnown(s) ==> r.height == s.height
    ensures r == s.(width := value, height := r.height)
  {
    if RatioKnown(s) then s.(width := value, height := Scaled(value, s.originalHeight, s.originalWidth))
    else s.(width := value)
  }

  /** `handleHeightChange`: the height, and with a locked ratio the width that keeps it. */
  function HeightChanged(s: ImageState, value: int): (r: ImageState)
    ensures r.height == value
    ensures RatioKnown(s) ==>
              -s.originalHeight < 2 * (r.width * s.originalHeight - value * s.originalWidth) <= s.originalHeight
    ensures !RatioKnown(s) ==> r.width == s.width
    ensures r == s.(height := value, width := r.width)
  {
    if RatioKnown(s) then s.(height := value, width := Scaled(value, s.originalWidth, s.originalHeight))
    else s.(height := value)
  }

  /** `resetDimensions`: back to the loaded size. */
  function DimensionsReset(s: ImageState): (r: ImageState)
    ensures r == s.(width := s.originalWidth, height := s.originalHeight)
  {
    s.(width := s.originalWidth, height := s.originalHeight)
  }

  /** Typing the original width with a locked ratio gives the original height. */
  lemma OriginalWidthKeepsHeight(s: ImageState)
    requires RatioKnown(s)
    ensures WidthChanged(s, s.originalWidth).height == s.originalHeight
  {
    ScaledExact(s.originalWidth, s.originalHeight, s.originalWidth, s.originalHeight);
  }

  /** `resetTransformations`: no rotation, no flips, nothing else touched. */
  function TransformationsReset(s: ImageState): (r: ImageState)
    ensures r == s.(rotation := 0, flipHorizontal := false, flipVertical := false)
  {
    s.(rotation := 0, flipHorizontal := false, flipVertical := false)
  }

  /** The rotate buttons: a quarter turn either way, without wrapping. */
  function Rotated(s: ImageState, clockwise: bool): (r: ImageState)
    ensures r == s.(rotation := if clockwise then s.rotation + 90 else s.rotation - 90)
  {
    s.(rotation := if clockwise then s.rotation + 90 else s.rotation - 90)
  }

  /** A turn one way and one back is no turn at all. */
  lemma RotateBack(s: ImageState, clockwise: bool)
    ensures Rotated(Rotated(s, clockwise), !clockwise) == s
  {
  }

  /** The flip buttons toggle their flag. */
  function Flipped(s: ImageState, horizontal: bool): (r: ImageState)
    ensures horizontal ==> r == s.(flipHorizontal := !s.flipHorizontal)
    ensures !horizontal ==> r == s.(flipVertical := !s.flipVertical)
  {
    if horizontal then s.(flipHorizontal := !s.flipHorizontal) else s.(flipVertical := !s.flipVertical)
  }

  /** Pressing a flip button twice changes nothing. */
  lemma FlipTwice(s: ImageState, horizontal: bool)
    ensures Flipped(Flipped(s, horizontal), horizontal) == s
  {
  }

  /**
   * `handleFileUpload`, with what the reader gives back and the decoded size, or `None` when the
   * image does not decode: nothing without a file, a toast for a non-image, else the image shown
   * under its name without extension, its size and no transformation. Its decoded dimensions become
   * both the original and the current size; an image that does not decode leaves the previous
   * image's dimensions in place, as there is no `onerror` on that path.
   */
  function FileUploaded(s: ImageState, file: Option<UploadedFile>, dataUrl: string,
                        loaded: Option<(int, int)>): (r: ImageState)
    ensures file.None? ==> r == s
    ensures file.Some? && !StartsWith(file.value.fileType, "image/") ==>
              r == s.(notices := s.notices + [Notice(Error, "Please select a valid image file")])
    ensures file.Some? && StartsWith(file.value.fileType, "image/") && loaded.Some? ==>
              r == s.(imageUrl := dataUrl, imageName := StripExtension(file.value.name),
                      originalImageSize := file.value.size,
                      rotation := 0, flipHorizontal := false, flipVertical := false,
                      originalWidth := loaded.value.0, originalHeight := loaded.value.1,
                      width := loaded.value.0, height := loaded.value.1)
    ensures file.Some? && StartsWith(file.value.fileType, "image/") && loaded.None? ==>
              r == s.(imageUrl := dataUrl, imageName := StripExtension(file.value.name),
                      originalImageSize := file.value.size,
                      rotation := 0, flipHorizontal := false, flipVertical := false)
  {
    match file
    case None => s
    case Some(f) =>
      if !StartsWith(f.fileType, "image/") then
        s.(notices := s.notices + [Notice(Error, "Please select a valid image file")])
      else
        var read := s.(imageUrl := dataUrl, imageName := StripExtension(f.name), originalImageSize := f.size,
                       rotation := 0, flipHorizontal := false, flipVertical := false);
        match loaded
        case Some(dims) =>
          read.(originalWidth := dims.0, originalHeight := dims.1, width := dims.0, height := dims.1)
        case None => read
  }

  /** A freshly decoded image is shown at its own size, untransformed. */
  lemma UploadedUntransformed(s: ImageState, f: UploadedFile, dataUrl: string, w: int, h: int)
    requires StartsWith(f.fileType, "image/")
    ensures var r := FileUploaded(s, Some(f), dataUrl, Some((w, h)));
            r.width == r.originalWidth == w && r.height == r.originalHeight == h
            && TransformationsReset(r) == r && DimensionsReset(r) == r
  {
  }

  /**
   * An image file that does not decode is still shown, untransformed, but at the size of the image
   * before it, and with no toast.
   */
  lemma UndecodedKeepsSize(s: ImageState, f: UploadedFile, dataUrl: string)
    requires StartsWith(f.fileType, "image/")
    ensures var r := FileUploaded(s, Some(f), dataUrl, None);
            r.imageUrl == dataUrl && TransformationsReset(r) == r && r.notices == s.notices
            && r.width == s.width && r.height == s.height
            && r.originalWidth == s.originalWidth && r.originalHeight == s.originalHeight
  {
  }

  /**
   * `handleImageUrlInput`, with the loaded size or `None` when loading failed: blank text does
   * nothing; otherwise the image is named "remote-image" with an unknown file size, and its size is
   * taken when it loads or a toast raised when it does not.
   */
  function UrlEntered(s: ImageState, url: string, loaded: Option<(int, int)>): (r: ImageState)
    ensures Trim(url) == [] ==> r == s
    ensures Trim(url) != [] ==> r.imageUrl == url && r.imageName == "remote-image" && r.originalImageSize == 0
    ensures Trim(url) != [] && loaded.Some? ==>
              r.originalWidth == r.width == loaded.value.0 && r.originalHeight == r.height == loaded.value.1
    ensures Trim(url) != [] && loaded.None? ==>
              r == s.(imageUrl := url, imageName := "remote-image", originalImageSize := 0,
                      notices := s.notices + [Notice(Error, "Failed to load image from URL")])
  {
    if Trim(url) == [] then s
    else
      var t := s.(imageUrl := url, imageName := "remote-image", originalImageSize := 0);
      match loaded
      case Some(dims) =>
        t.(originalWidth := dims.0, originalHeight := dims.1, width := dims.0, height := dims.1)
      case None => t.(notices := t.notices + [Notice(Error, "Failed to load image from URL")])
  }

  /**
   * `processImage`, past drawing: nothing without an image; otherwise the canvas is asked for the
   * selected format's encoding, and the blob's URL and size are shown, or a toast raised on failure.
   */
  function Processed(s: ImageState, outcome: ProcessOutcome): (r: ImageState)
    ensures s.imageUrl == "" ==> r == s
    ensures s.imageUrl != "" && outcome.Encoded? ==>
              r == s.(encodings := s.encodings + [EncodingFor(s.selectedFormat, s.quality)],
                      convertedImageUrl := outcome.url, convertedImageSize := outcome.size, isProcessing := false)
    ensures s.imageUrl != "" && outcome.NoBlob? ==>
              r == s.(encodings := s.encodings + [EncodingFor(s.selectedFormat, s.quality)], isProcessing := false)
    ensures s.imageUrl != "" && outcome.ProcessFailed? ==>
              r == s.(notices := s.notices + [Notice(Error, "Failed to process image")], isProcessing := false)
  {
    if s.imageUrl == "" then s
    else
      match outcome
      case Encoded(url, size) =>
        s.(encodings := s.encodings + [EncodingFor(s.selectedFormat, s.quality)],
           convertedImageUrl := url, convertedImageSize := size, isProcessing := false)
      case NoBlob => s.(encodings := s.encodings + [EncodingFor(s.selectedFormat, s.quality)], isProcessing := false)
      case ProcessFailed => s.(notices := s.notices + [Notice(Error, "Failed to process image")], isProcessing := false)
  }

  /** `clearAll`: no image, every size zero, no transformation; the output settings stay. */
  function Cleared(s: ImageState): (r: ImageState)
    ensures r.imageUrl == "" && r.convertedImageUrl == "" && r.imageName == ""
    ensures r.width == 0 && r.height == 0 && r.originalWidth == 0 && r.originalHeight == 0
    ensures r.originalImageSize == 0 && r.convertedImageSize == 0
    ensures r.rotation == 0 && !r.flipHorizontal && !r.flipVertical
    ensures r.selectedFormat == s.selectedFormat && r.quality == s.quality
    ensures r.maintainAspectRatio == s.maintainAspectRatio && r.isProcessing == s.isProcessing
    ensures r.encodings == s.encodings && r.notices == s.notices
  {
    s.(imageUrl := "", convertedImageUrl := "", imageName := "", width := 0, height := 0,
       originalWidth := 0, originalHeight := 0, originalImageSize := 0, convertedImageSize := 0,
       rotation := 0, flipHorizontal := false, flipVertical := false)
  }

  /** Clearing is idempotent, and after it processing does nothing. */
  lemma ClearedIdle(s: ImageState, outcome: ProcessOutcome)
    ensures Cleared(Cleared(s)) == Cleared(s)
    ensures Processed(Cleared(s), outcome) == Cleared(s)
  {
  }

  // ---------------------------------------------------------------- the processing effect

  /** The values the processing effect and `processImage` depend on agree in `a` and `b`. */
  predicate SameInputs(a: ImageState, b: ImageState) {
    a.imageUrl == b.imageUrl && a.selectedFormat == b.selectedFormat && a.quality == b.quality
    && a.width == b.width && a.height == b.height && a.rotation == b.rotation
    && a.flipHorizontal == b.flipHorizontal && a.flipVertical == b.flipVertical
  }

  /**
   * The effect after a handler took the page from `before` to `after`: when a value it depends on
   * changed, `processImage` runs on the new state (and does nothing without an image).
   */
  function Reprocessed(before: ImageState, after: ImageState, outcome: ProcessOutcome): (r: ImageState)
    ensures SameInputs(r, after)
    ensures SameInputs(before, after) || after.imageUrl == "" ==> r == after
    ensures !SameInputs(before, after) && after.imageUrl != "" ==>
              !r.isProcessing
              && (r.encodings == after.encodings + [EncodingFor(after.selectedFormat, after.quality)]
                  || r.notices == after.notices + [Notice(Error, "Failed to process image")])
  {
    if SameInputs(before, after) then after else Processed(after, outcome)
  }

  /** Processing changes none of the values it depends on, so the effect does not run it again. */
  lemma ProcessingSettles(s: ImageState, outcome: ProcessOutcome)
    ensures SameInputs(Processed(s, outcome), s)
  {
  }

  /**
   * After a change the effect reacts to, an image whose encoding succeeds shows the new blob, and
   * the last encoding asked for is the one the current format and quality select: no output from
   * earlier settings is left on display.
   */
  lemma NoStaleOutput(before: ImageState, after: ImageState, url: string, size: int)
    requires !SameInputs(before, after) && after.imageUrl != ""
    ensures var r := Reprocessed(before, after, Encoded(url, size));
            r.convertedImageUrl == url && r.convertedImageSize == size && !r.isProcessing
            && |r.encodings| > 0 && r.encodings[|r.encodings| - 1] == EncodingFor(r.selectedFormat, r.quality)
  {
  }

  /** Clearing leaves nothing for the effect to process. */
  lemma ClearedNotProcessed(s: ImageState, outcome: ProcessOutcome)
    ensures Reprocessed(s, Cleared(s), outcome) == Cleared(s)
  {
    ClearedIdle(s, outcome);
  }

  /** A rotation or a flip always changes an input, so an image is processed again after it. */
  lemma TransformReprocesses(s: ImageState, clockwise: bool, horizontal: bool)
    ensures !SameInputs(s, Rotated(s, clockwise)) && !SameInputs(s, Flipped(s, horizontal))
  {
  }

  class ImageFormatPage {
    var state: ImageState

    constructor()
      ensures state == InitialState
    {
      state := InitialState;
    }

    method HandleWidthChange(value: int)
      modifies this
      ensures state == WidthChanged(old(state), value)
    {
      state := WidthChanged(state, value);
    }

    method HandleHeightChange(value: int)
      modifies this
      ensures state == HeightChanged(old(state), value)
    {
      state := HeightChanged(state, value);
    }

    method ResetDimensions()
      modifies this
      ensures state == DimensionsReset(old(state))
    {
      state := DimensionsReset(state);
    }

    method ResetTransformations()
      modifies this
      ensures state == TransformationsReset(old(state))
    {
      state := TransformationsReset(state);
    }

    method Rotate(clockwise: bool)
      modifies this
      ensures state == Rotated(old(state), clockwise)
    {
      state := Rotated(state, clockwise);
    }

    method Flip(horizontal: bool)
      modifies this
      ensures state == Flipped(old(state), horizontal)
    {
      state := Flipped(state, horizontal);
    }

    method HandleFileUpload(file: Option<UploadedFile>, dataUrl: string, loaded: Option<(int, int)>)
      modifies this
      ensures state == FileUploaded(old(state), file, dataUrl, loaded)
    {
      state := FileUploaded(state, file, dataUrl, loaded);
    }

    method HandleImageUrlInput(url: string, loaded: Option<(int, int)>)
      modifies this
      ensures state == UrlEntered(old(state), url, loaded)
    {
      state := UrlEntered(state, url, loaded);
    }

    method ProcessImage(outcome: ProcessOutcome)
      modifies this
      ensures state == Processed(old(state), outcome)
    {
      state := Processed(state, outcome);
    }

    method ClearAll()
      modifies this
      ensures state == Cleared(old(state))
    {
      state := Cleared(state);
    }

    /** The format menu, the quality slider and presets, and the ratio switch. */
    method SetOptions(format: string, quality: real, maintainAspectRatio: bool)
      modifies this
      ensures state == old(state).(selectedFormat := format, quality := quality,
                                   maintainAspectRatio := maintainAspectRatio)
    {
      state := state.(selectedFormat := format, quality := quality, maintainAspectRatio := maintainAspectRatio);
    }

    /** The processing effect, run after the page moved on from `before`. */
    method RunEffect(before: ImageState, outcome: ProcessOutcome)
      modifies this
      ensures state == Reprocessed(before, old(state), outcome)
    {
      if !SameInputs(before, state) {
        ProcessImage(outcome);
      }
    }

    // Each handler followed by the processing effect it sets off.

    method ChangeWidth(value: int, outcome: ProcessOutcome)
      modifies this
      ensures state == Reprocessed(old(state), WidthChanged(old(state), value), outcome)
    {
      var before := state;
      HandleWidthChange(value);
      RunEffect(before, outcome);
    }

    method ChangeHeight(value: int, outcome: ProcessOutcome)
      modifies this
      ensures state == Reprocessed(old(state), HeightChanged(old(state), value), outcome)
    {
      var before := state;
      HandleHeightChange(value);
      RunEffect(before, outcome);
    }

    method RestoreDimensions(outcome: ProcessOutcome)
      modifies this
      ensures state == Reprocessed(old(state), DimensionsReset(old(state)), outcome)
    {
      var before := state;
      ResetDimensions();
      RunEffect(before, outcome);
    }

    method RestoreTransformations(outcome: ProcessOutcome)
      modifies this
      ensures state == Reprocessed(old(state), TransformationsReset(old(state)), outcome)
    {
      var before := state;
      ResetTransformations();
      RunEffect(before, outcome);
    }

    method Turn(clockwise: bool, outcome: ProcessOutcome)
      modifies this
      ensures state == Reprocessed(old(state), Rotated(old(state), clockwise), outcome)
    {
      var before := state;
      Rotate(clockwise);
      RunEffect(before, outcome);
    }

    method Mirror(horizontal: bool, outcome: ProcessOutcome)
      modifies this
      ensures state == Reprocessed(old(state), Flipped(old(state), horizontal), outcome)
    {
      var before := state;
      Flip(horizontal);
      RunEffect(before, outcome);
    }

    method Upload(file: Option<UploadedFile>, dataUrl: string, loaded: Option<(int, int)>, outcome: ProcessOutcome)
      modifies this
      ensures state == Reprocessed(old(state), FileUploaded(old(state), file, dataUrl, loaded), outcome)
    {
      var before := state;
      HandleFileUpload(file, dataUrl, loaded);
      RunEffect(before, outcome);
    }

    method EnterUrl(url: string, loaded: Option<(int, int)>, outcome: ProcessOutcome)
      modifies this
      ensures state == Reprocessed(old(state), UrlEntered(old(state), url, loaded), outcome)
    {
      var before := state;
      HandleImageUrlInput(url, loaded);
      RunEffect(before, outcome);
    }

    method ChangeOptions(format: string, quality: real, maintainAspectRatio: bool, outcome: ProcessOutcome)
      modifies this
      ensures state == Reprocessed(old(state), old(state).(selectedFormat := format, quality := quality,
                                                           maintainAspectRatio := maintainAspectRatio), outcome)
    {
      var before := state;
      SetOptions(format, quality, maintainAspectRatio);
      RunEffect(before, outcome);
    }

    /** Clearing sets the effect off too, but with no image left it changes nothing. */
    method Clear(outcome: ProcessOutcome)
      modifies this
      ensures state == Cleared(old(state))
    {
      var before := state;
      ClearAll();
      ClearedNotProcessed(before, outcome);
      RunEffect(before, outcome);
    }
  }
}
