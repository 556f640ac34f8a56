/**
 * The timestamp converter page: a UNIX timestamp in seconds or milliseconds turned into dates in
 * the chosen timezone, and a date turned back into a timestamp. The runtime's date parser and its
 * `Intl` formatters are parameters (`parseDate`, `render`); the page's own arithmetic, guards and
 * error texts are modelled.
 */
module Timestamp {
  import opened Options
  import opened Strings
  import opened Scanning
  import opened Timezones

  // ---------------------------------------------------------------- parseInt

  /** The length of the run of hexadecimal digits at the front. */
  function HexRun(s: string): (n: nat)
    ensures n <= |s| && (forall i | 0 <= i < n :: IsHexDigit(s[i])) && (n == |s| || !IsHexDigit(s[n]))
  {
    if s != [] && IsHexDigit(s[0]) then 1 + HexRun(s[1..]) else 0
  }

  function ParseHex(s: string): nat
    requires forall i | 0 <= i < |s| :: IsHexDigit(s[i])
  {
    if s == [] then 0 else 16 * ParseHex(s[..|s| - 1]) + HexValue(s[|s| - 1])
  }

  function Signed(negative: bool, n: nat): int {
    if negative then -(n as int) else n
  }

  /**
   * `parseInt(s)` without a radix: leading white space skipped, an optional sign, then a `0x`
   * prefix and hexadecimal digits or else decimal digits, as many as there are; `None` (NaN) when
   * there is no digit.
   */
  function ParseInt(s: string): Option<int> {
    ParseSigned(TrimStart(s))
  }

  /** After the white space: an optional sign, then the magnitude. */
  function ParseSigned(t: string): Option<int> {
    if t != [] && (t[0] == '-' || t[0] == '+') then
      match ParseMagnitude(t[1..])
      case None => None
      case Some(n) => Some(Signed(t[0] == '-', n))
    else
      match ParseMagnitude(t)
      case None => None
      case Some(n) => Some(n)
  }

  /** After the sign: `0x` and hexadecimal digits, or else decimal digits; `None` without a digit. */
  function ParseMagnitude(u: string): Option<nat> {
    if |u| >= 2 && u[0] == '0' && (u[1] == 'x' || u[1] == 'X') then
      var h := HexRun(u[2..]);
      if h == 0 then None else Some(ParseHex(u[2..][..h]))
    else
      var d := DigitRun(u);
      if d == 0 then None else Some(ParseDecimal(u[..d]))
  }

  lemma TrimStartNoSpace(s: string)
    requires s != [] && !IsSpace(s[0])
    ensures TrimStart(s) == s
  {
  }

  /** `/^\d+$/` accepts the text. */
  predicate IsDigitString(s: string) {
    s != [] && AllDigits(s)
  }

  /** A run of decimal digits is read whole as the decimal number it spells. */
  lemma MagnitudeOfDigits(d: string)
    requires IsDigitString(d)
    ensures ParseMagnitude(d) == Some(ParseDecimal(d))
  {
    DigitRunOfDigitsThen(d, []);
    assert d + [] == d && d[..|d|] == d;
  }

  /** Unsigned digits, after the white space: the number they spell. */
  lemma SignedDigits(d: string)
    requires IsDigitString(d)
    ensures ParseSigned(d) == Some(ParseDecimal(d) as int)
  {
    assert IsDigit(d[0]);
    MagnitudeOfDigits(d);
  }

  /** A minus sign and digits, after the white space: the negated number. */
  lemma SignedMinusDigits(t: string, d: string)
    requires IsDigitString(d) && t == "-" + d
    ensures ParseSigned(t) == Some(-(ParseDecimal(d) as int))
  {
    assert t[0] == '-' && t[1..] == d;
    MagnitudeOfDigits(d);
  }

  /** On a run of decimal digits `parseInt` reads the decimal number they spell. */
  lemma ParseIntDigits(s: string)
    requires IsDigitString(s)
    ensures ParseInt(s) == Some(ParseDecimal(s))
  {
    assert IsDigit(s[0]);
    TrimStartNoSpace(s);
    SignedDigits(s);
  }

  /** A minus sign before a run of decimal digits reads as the negated number. */
  lemma ParseIntNegative(t: string, d: string)
    requires IsDigitString(d) && t == "-" + d
    ensures ParseInt(t) == Some(-(ParseDecimal(d) as int))
  {
    assert t[0] == '-';
    TrimStartNoSpace(t);
    SignedMinusDigits(t, d);
  }

  /** `parseInt(n.toString()) == n`: the text the page writes for a timestamp reads back as it. */
  lemma ParseIntToString(n: int)
    ensures ParseInt(IntToString(n)) == Some(n)
  {
    var t := IntToString(n);
    if n < 0 {
      var m: nat := -n;
      var d := DecimalString(m);
      assert t == "-" + d;
      ParseIntNegative(t, d);
      ParseDecimalString(m);
    } else {
      var d := DecimalString(n);
      assert t == d;
      ParseIntDigits(d);
      ParseDecimalString(n);
    }
  }

  // ---------------------------------------------------------------- units

  datatype TimeUnit = Second | Millisecond

  /** Input in the chosen unit to milliseconds: seconds are multiplied by 1000. */
  function ToMillis(n: int, unit: TimeUnit): int {
    if unit == Second then n * 1000 else n
  }

  /** Milliseconds to the chosen unit: `Math.floor(ms / 1000)` for seconds. */
  function FromMillis(ms: int, unit: TimeUnit): (r: int)
    ensures unit == Second ==> 1000 * r <= ms < 1000 * r + 1000
    ensures unit == Millisecond ==> r == ms
  {
    if unit == Second then ms / 1000 else ms
  }

  /** A whole number of the chosen unit survives the trip to milliseconds and back. */
  lemma UnitRoundTrip(n: int, unit: TimeUnit)
    ensures FromMillis(ToMillis(n, unit), unit) == n
  {
  }

  /** The instant a `Date` can hold: at most 8.64e15 ms either side of the epoch. */
  const MaxTime: int := 8_640_000_000_000_000

  predicate ValidTime(ms: int) {
    -MaxTime <= ms <= MaxTime
  }

  // ---------------------------------------------------------------- page state

  datatype Direction = TimestampToDate | DateToTimestamp

  /** The seven formatted renderings of an instant. */
  datatype Formatted = Formatted(iso: string, rfc2822: string, shortDate: string, shortTime: string,
                                 longDate: string, longTime: string, fullDate: string)

  function Uniform(text: string): Formatted {
    Formatted(text, text, text, text, text, text, text)
  }

  /** What the runtime's formatters make of one instant in the page's timezone. */
  datatype Rendering = Rendering(date: string, results: Formatted)

  datatype TimestampState = TimestampState(
    unit: TimeUnit,
    timezone: string,
    timestamp: string,
    date: string,
    direction: Direction,
    results: Formatted)

  const TimestampError := "Invalid timestamp or timezone"
  const DateError := "Invalid date format"

  function InitialState(resolved: Option<string>, sorted: seq<Timezone>): TimestampState {
    TimestampState(Second, UserTimezone(resolved, sorted), "", "", TimestampToDate, Uniform(""))
  }

  /** The instant a timestamp text stands for in the chosen unit, if `new Date` accepts it. */
  function TimestampInstant(ts: string, unit: TimeUnit): Option<int> {
    match ParseInt(ts)
    case None => None
    case Some(n) => if ValidTime(ToMillis(n, unit)) then Some(ToMillis(n, unit)) else None
  }

  /**
   * What `handleTimestampToDate` writes: a blank text clears the date and the seven results; text
   * that is not a valid instant puts the error text in all eight; otherwise all eight are the
   * renderings.
   */
  function DateShown(ts: string, unit: TimeUnit, render: int -> Rendering): Rendering {
    if Trim(ts) == [] then Rendering("", Uniform(""))
    else
      match TimestampInstant(ts, unit)
      case None => Rendering(TimestampError, Uniform(TimestampError))
      case Some(ms) => render(ms)
  }

  /** `handleTimestampToDate(ts)`: the date and the results become what `DateShown` gives. */
  function TimestampToDateStep(s: TimestampState, ts: string, render: int -> Rendering): TimestampState {
    var shown := DateShown(ts, s.unit, render);
    s.(date := shown.date, results := shown.results)
  }

  /**
   * The instant a date text stands for: all digits is a timestamp in the chosen unit; otherwise
   * the text read as GMT, else read as it is.
   */
  function DateInstant(dateStr: string, unit: TimeUnit, parseDate: string -> Option<int>): Option<int> {
    if dateStr != [] && AllDigits(dateStr) then TimestampInstant(dateStr, unit)
    else
      match parseDate(dateStr + " GMT")
      case Some(ms) => Some(ms)
      case None => parseDate(dateStr)
  }

  /**
   * What `handleDateToTimestamp` writes: a blank text clears the timestamp; an unreadable one shows
   * the error text; otherwise the instant in the chosen unit.
   */
  function TimestampShown(dateStr: string, unit: TimeUnit, parseDate: string -> Option<int>): string {
    if Trim(dateStr) == [] then ""
    else
      match DateInstant(dateStr, unit, parseDate)
      case None => DateError
      case Some(ms) => IntToString(FromMillis(ms, unit))
  }

  /** `handleDateToTimestamp(dateStr)`: the timestamp becomes what `TimestampShown` gives. */
  function DateToTimestampStep(s: TimestampState, dateStr: string, parseDate: string -> Option<int>): TimestampState {
    s.(timestamp := TimestampShown(dateStr, s.unit, parseDate))
  }

  /** `handleConversion`: the step for the current direction, on the current texts. */
  function ConversionStep(s: TimestampState, render: int -> Rendering, parseDate: string -> Option<int>): TimestampState {
    if s.direction == TimestampToDate then TimestampToDateStep(s, s.timestamp, render)
    else DateToTimestampStep(s, s.date, parseDate)
  }

  /** `getCurrentTimestamp`, given `Date.now()`. */
  function CurrentTimestampStep(s: TimestampState, now: int, render: int -> Rendering): TimestampState {
    var ts := IntToString(FromMillis(now, s.unit));
    var s1 := s.(timestamp := ts);
    if s.direction == TimestampToDate then TimestampToDateStep(s1, ts, render) else s1
  }

  // ---------------------------------------------------------------- properties

  /** A blank timestamp clears the date and every formatted field, and nothing else. */
  lemma BlankTimestampClears(s: TimestampState, ts: string, render: int -> Rendering)
    requires AllSpaces(ts)
    ensures TimestampToDateStep(s, ts, render) == s.(date := "", results := Uniform(""))
  {
    TrimEmptyIffAllSpaces(ts);
  }

  /** A blank date clears the timestamp, and nothing else. */
  lemma BlankDateClears(s: TimestampState, dateStr: string, parseDate: string -> Option<int>)
    requires AllSpaces(dateStr)
    ensures DateToTimestampStep(s, dateStr, parseDate) == s.(timestamp := "")
  {
    TrimEmptyIffAllSpaces(dateStr);
  }

  /** The text written for a number always has a character that is not white space. */
  lemma IntToStringNotBlank(n: int)
    ensures Trim(IntToString(n)) != []
  {
    var t := IntToString(n);
    var m: nat := if n < 0 then -n else n;
    var d := DecimalString(m);
    assert t[|t| - 1] == d[|d| - 1];
    assert IsDigit(d[|d| - 1]);
    NotBlank(t, |t| - 1);
  }

  /** A timestamp the page wrote itself is rendered at the instant it names. */
  lemma TimestampTextRendered(s: TimestampState, n: int, render: int -> Rendering)
    requires ValidTime(ToMillis(n, s.unit))
    ensures TimestampToDateStep(s, IntToString(n), render).date == render(ToMillis(n, s.unit)).date
    ensures TimestampToDateStep(s, IntToString(n), render).results == render(ToMillis(n, s.unit)).results
  {
    var t := IntToString(n);
    ParseIntToString(n);
    assert TimestampInstant(t, s.unit) == Some(ToMillis(n, s.unit));
    IntToStringNotBlank(n);
  }

  /** A timestamp typed on the date side reads back as the same number, leading zeros dropped. */
  lemma DigitsRoundTrip(s: TimestampState, dateStr: string, parseDate: string -> Option<int>)
    requires IsDigitString(dateStr)
    requires ValidTime(ToMillis(ParseDecimal(dateStr), s.unit))
    ensures DateToTimestampStep(s, dateStr, parseDate).timestamp == DecimalString(ParseDecimal(dateStr))
  {
    ParseIntDigits(dateStr);
    NotBlank(dateStr, 0);
    UnitRoundTrip(ParseDecimal(dateStr), s.unit);
  }

  /**
   * "Now" in seconds is rendered at the start of the current second: the floor division and the
   * multiplication by 1000 lose only the milliseconds.
   */
  lemma CurrentSecondRendered(s: TimestampState, now: int, render: int -> Rendering)
    requires s.unit == Second && s.direction == TimestampToDate
    requires 0 <= now <= MaxTime
    ensures CurrentTimestampStep(s, now, render).date == render(now - now % 1000).date
    ensures CurrentTimestampStep(s, now, render).timestamp == IntToString(now / 1000)
  {
    var n := now / 1000;
    assert ToMillis(n, Second) == now - now % 1000;
    TimestampTextRendered(s.(timestamp := IntToString(n)), n, render);
  }

  /** A date the page cannot read leaves the error text, and a readable one never does. */
  lemma DateErrorExactly(s: TimestampState, dateStr: string, parseDate: string -> Option<int>)
    requires Trim(dateStr) != []
    ensures DateToTimestampStep(s, dateStr, parseDate).timestamp == DateError
            <==> DateInstant(dateStr, s.unit, parseDate).None?
  {
    var r := DateInstant(dateStr, s.unit, parseDate);
    if r.Some? {
      var t := IntToString(FromMillis(r.value, s.unit));
      assert t != DateError by {
        if FromMillis(r.value, s.unit) < 0 {
          assert t[0] == '-';
        } else {
          assert IsDigit(t[0]);
        }
      }
    }
  }

  // ---------------------------------------------------------------- effects

  /*
   * The page's first effect runs `handleConversion` whenever it changes, that is whenever the
   * direction, either text, the unit or the timezone changes; the second runs `getCurrentTimestamp`
   * whenever the unit or the direction changes (and on mount); the third re-runs the conversion on a
   * timezone change. The functions below give the state once those effects have run: a conversion
   * that has run once changes nothing when it runs again (`ConversionSettles`), so the re-renders
   * the effects cause end there. `render` formats in the state's timezone.
   */

  /** A second run of the conversion on its own result changes nothing. */
  lemma ConversionSettles(s: TimestampState, render: int -> Rendering, parseDate: string -> Option<int>)
    ensures var r := ConversionStep(s, render, parseDate);
            ConversionStep(r, render, parseDate) == r
  {
  }

  /**
   * `getCurrentTimestamp` followed by the conversion its new timestamp sets off: the mount, the Now
   * button, and (after the setter) a change of unit or direction. Timestamp to date shows the clock
   * reading and its rendering; date to timestamp converts the date text, so the reading is
   * overwritten.
   */
  function ClockRead(s: TimestampState, now: int, render: int -> Rendering, parseDate: string -> Option<int>): (r: TimestampState)
    ensures r.unit == s.unit && r.timezone == s.timezone && r.direction == s.direction
    ensures ConversionStep(r, render, parseDate) == r
    ensures s.direction == TimestampToDate ==>
              var ts := IntToString(FromMillis(now, s.unit));
              r == TimestampToDateStep(s.(timestamp := ts), ts, render)
    ensures s.direction == DateToTimestamp ==> r == DateToTimestampStep(s, s.date, parseDate)
  {
    ConversionSettles(CurrentTimestampStep(s, now, render), render, parseDate);
    ConversionStep(CurrentTimestampStep(s, now, render), render, parseDate)
  }

  /**
   * The input's `onChange`: the text goes to the timestamp or the date, whichever the direction
   * reads, and the conversion runs on it.
   */
  function InputEdited(s: TimestampState, text: string, render: int -> Rendering, parseDate: string -> Option<int>): (r: TimestampState)
    ensures r.unit == s.unit && r.timezone == s.timezone && r.direction == s.direction
    ensures ConversionStep(r, render, parseDate) == r
    ensures s.direction == TimestampToDate ==> r.timestamp == text && r == TimestampToDateStep(s.(timestamp := text), text, render)
    ensures s.direction == DateToTimestamp ==> r.date == text && r == DateToTimestampStep(s.(date := text), text, parseDate)
  {
    var edited := if s.direction == TimestampToDate then s.(timestamp := text) else s.(date := text);
    ConversionSettles(edited, render, parseDate);
    ConversionStep(edited, render, parseDate)
  }

  /** A new timezone: the texts that are read stay, and the conversion runs again in the new zone. */
  function TimezoneChanged(s: TimestampState, tz: string, render: int -> Rendering, parseDate: string -> Option<int>): (r: TimestampState)
    ensures r.timezone == tz && r.unit == s.unit && r.direction == s.direction
    ensures ConversionStep(r, render, parseDate) == r
    ensures s.direction == TimestampToDate ==> r.timestamp == s.timestamp
    ensures s.direction == DateToTimestamp ==> r.date == s.date && r.results == s.results
  {
    ConversionSettles(s.(timezone := tz), render, parseDate);
    ConversionStep(s.(timezone := tz), render, parseDate)
  }

  /** The mount, a unit change or a direction change in seconds shows the start of the current second. */
  lemma ClockReadShowsSecond(s: TimestampState, now: int, render: int -> Rendering, parseDate: string -> Option<int>)
    requires s.unit == Second && s.direction == TimestampToDate
    requires 0 <= now <= MaxTime
    ensures ClockRead(s, now, render, parseDate).timestamp == IntToString(now / 1000)
    ensures ClockRead(s, now, render, parseDate).date == render(now - now % 1000).date
  {
    CurrentSecondRendered(s, now, render);
  }

  /**
   * In date to timestamp, the clock reading never shows: a page whose conversion has run is left as
   * it is by the Now button, and the clock does not matter for a unit change.
   */
  lemma ClockIgnoredOnDateSide(s: TimestampState, now1: int, now2: int, render: int -> Rendering, parseDate: string -> Option<int>)
    requires s.direction == DateToTimestamp
    ensures ConversionStep(s, render, parseDate) == s ==> ClockRead(s, now1, render, parseDate) == s
    ensures ClockRead(s, now1, render, parseDate) == ClockRead(s, now2, render, parseDate)
  {
  }

  /** A timestamp typed in timestamp to date is rendered at the instant it names. */
  lemma EditedTimestampRendered(s: TimestampState, n: int, render: int -> Rendering, parseDate: string -> Option<int>)
    requires s.direction == TimestampToDate && ValidTime(ToMillis(n, s.unit))
    ensures InputEdited(s, IntToString(n), render, parseDate).date == render(ToMillis(n, s.unit)).date
    ensures InputEdited(s, IntToString(n), render, parseDate).results == render(ToMillis(n, s.unit)).results
  {
    var t := IntToString(n);
    TimestampTextRendered(s.(timestamp := t), n, render);
  }

  /** Digits typed in date to timestamp come back as the same number, leading zeros dropped. */
  lemma EditedDigitsRoundTrip(s: TimestampState, d: string, render: int -> Rendering, parseDate: string -> Option<int>)
    requires s.direction == DateToTimestamp && IsDigitString(d)
    requires ValidTime(ToMillis(ParseDecimal(d), s.unit))
    ensures InputEdited(s, d, render, parseDate).timestamp == DecimalString(ParseDecimal(d))
  {
    DigitsRoundTrip(s.(date := d), d, parseDate);
  }

  // ---------------------------------------------------------------- the page

  class TimestampPage {
    var unit: TimeUnit
    var timezone: string
    var timestamp: string
    var date: string
    var direction: Direction
    var results: Formatted

    function State(): TimestampState
      reads this
    {
      TimestampState(unit, timezone, timestamp, date, direction, results)
    }

    /** The page opens in seconds, timestamp to date, on the user's zone. */
    constructor(resolved: Option<string>, sorted: seq<Timezone>)
      ensures State() == InitialState(resolved, sorted)
    {
      unit, timezone, timestamp, date := Second, UserTimezone(resolved, sorted), "", "";
      direction, results := TimestampToDate, Uniform("");
    }

    method Commit(next: TimestampState)
      modifies this
      ensures State() == next
    {
      unit, timezone, timestamp, date := next.unit, next.timezone, next.timestamp, next.date;
      direction, results := next.direction, next.results;
    }

    method SetUnit(u: TimeUnit)
      modifies this
      ensures State() == old(State()).(unit := u)
    {
      unit := u;
    }

    method SetTimezone(tz: string)
      modifies this
      ensures State() == old(State()).(timezone := tz)
    {
      timezone := tz;
    }

    method SetDirection(d: Direction)
      modifies this
      ensures State() == old(State()).(direction := d)
    {
      direction := d;
    }

    method SetTimestamp(ts: string)
      modifies this
      ensures State() == old(State()).(timestamp := ts)
    {
      timestamp := ts;
    }

    method SetDate(text: string)
      modifies this
      ensures State() == old(State()).(date := text)
    {
      date := text;
    }

    method GetCurrentTimestamp(now: int, render: int -> Rendering)
      modifies this
      ensures State() == CurrentTimestampStep(old(State()), now, render)
    {
      Commit(CurrentTimestampStep(State(), now, render));
    }

    method HandleTimestampToDate(ts: string, render: int -> Rendering)
      modifies this
      ensures State() == TimestampToDateStep(old(State()), ts, render)
    {
      Commit(TimestampToDateStep(State(), ts, render));
    }

    method HandleDateToTimestamp(dateStr: string, parseDate: string -> Option<int>)
      modifies this
      ensures State() == DateToTimestampStep(old(State()), dateStr, parseDate)
    {
      Commit(DateToTimestampStep(State(), dateStr, parseDate));
    }

    method HandleConversion(render: int -> Rendering, parseDate: string -> Option<int>)
      modifies this
      ensures State() == ConversionStep(old(State()), render, parseDate)
    {
      Commit(ConversionStep(State(), render, parseDate));
    }

    /** The mount effect and the Now button: read the clock, then let the conversion run. */
    method ReadClock(now: int, render: int -> Rendering, parseDate: string -> Option<int>)
      modifies this
      ensures State() == ClockRead(old(State()), now, render, parseDate)
    {
      GetCurrentTimestamp(now, render);
      HandleConversion(render, parseDate);
    }

    /** The unit tabs: the setter, then the effects it sets off. */
    method ChangeUnit(u: TimeUnit, now: int, render: int -> Rendering, parseDate: string -> Option<int>)
      modifies this
      ensures State() == ClockRead(old(State()).(unit := u), now, render, parseDate)
    {
      SetUnit(u);
      ReadClock(now, render, parseDate);
    }

    /** The direction tabs: the setter, then the effects it sets off. */
    method ChangeDirection(d: Direction, now: int, render: int -> Rendering, parseDate: string -> Option<int>)
      modifies this
      ensures State() == ClockRead(old(State()).(direction := d), now, render, parseDate)
    {
      SetDirection(d);
      ReadClock(now, render, parseDate);
    }

    /** The timezone selector: the setter, then the conversion again. */
    method ChangeTimezone(tz: string, render: int -> Rendering, parseDate: string -> Option<int>)
      modifies this
      ensures State() == TimezoneChanged(old(State()), tz, render, parseDate)
    {
      SetTimezone(tz);
      HandleConversion(render, parseDate);
    }

    /** The input's `onChange`, then the conversion. */
    method EditInput(text: string, render: int -> Rendering, parseDate: string -> Option<int>)
      modifies this
      ensures State() == InputEdited(old(State()), text, render, parseDate)
    {
      if direction == TimestampToDate {
        SetTimestamp(text);
      } else {
        SetDate(text);
      }
      HandleConversion(render, parseDate);
    }
  }
}
