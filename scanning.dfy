/**
 * The comma-separated number patterns of the colour converter, read the way a backtracking regular
 * expression engine reads them. A field is `(\d+)`, optionally followed by one marker character
 * (`°` or `%`), and fields are separated by `\s*,\s*`. Because a marker, a comma and white space are
 * never digits, `\d+` can only ever match the longest run of digits, and `\s*M?\s*,` has exactly one
 * way to match. A deterministic left-to-right scan therefore accepts the same strings and captures
 * the same groups as the regular expression.
 */
module Scanning {
  import opened Options
  import opened Strings

  /** `\s*`: drops the longest run of white space at the front. */
  function SkipSpaces(s: string): (r: string)
    ensures |r| <= |s|
    ensures r == [] || !IsSpace(r[0])
  {
    if s != [] && IsSpace(s[0]) then SkipSpaces(s[1..]) else s
  }

  /** The length of the longest run of digits at the front: what greedy `\d+` consumes. */
  function DigitRun(s: string): (n: nat)
    ensures n <= |s| && AllDigits(s[..n]) && (n == |s| || !IsDigit(s[n]))
  {
    if s != [] && IsDigit(s[0]) then
      var n := 1 + DigitRun(s[1..]);
      assert s[..n] == [s[0]] + s[1..][..n - 1];
      n
    else 0
  }

  /** `M?`: drops the marker when it is next. */
  function SkipMarker(s: string, marker: Option<char>): (r: string)
    ensures r == s || (s != [] && r == s[1..])
  {
    if marker.Some? && s != [] && s[0] == marker.value then s[1..] else s
  }

  /** A marker must be told apart from digits, white space and the separator. */
  predicate GoodMarkers(markers: seq<Option<char>>) {
    forall k | 0 <= k < |markers| ::
      markers[k].Some? ==> !IsDigit(markers[k].value) && !IsSpace(markers[k].value) && markers[k].value != ','
  }

  /** The captured numbers and the text after the last digit of the last field. */
  datatype Fields = Fields(values: seq<nat>, rest: string)

  /** `(\d+)` at the front of `s`: the number and the text after it. */
  function ScanNumber(s: string): (r: Option<(nat, string)>)
    ensures r.Some? ==> |r.value.1| < |s|
  {
    var n := DigitRun(s);
    if n == 0 then None else Some((ParseDecimal(s[..n]), s[n..]))
  }

  /** `\s*M?\s*,\s*` at the front of `s`: the text after the separator. */
  function ScanSeparator(s: string, marker: Option<char>): Option<string> {
    var t := SkipSpaces(SkipMarker(SkipSpaces(s), marker));
    if t != [] && t[0] == ',' then Some(SkipSpaces(t[1..])) else None
  }

  /**
   * `(\d+)\s*M1?\s*,\s*(\d+)\s*M2?\s*,\s* ... (\d+)` matched at the very front of `s`, one field per
   * marker (a marker of `None` stands for a field without one).
   */
  function ScanFields(s: string, markers: seq<Option<char>>): (r: Option<Fields>)
    requires |markers| > 0
    ensures r.Some? ==> |r.value.values| == |markers|
    decreases |markers|
  {
    var num := ScanNumber(s);
    if num.None? then None
    else if |markers| == 1 then Some(Fields([num.value.0], num.value.1))
    else
      var sep := ScanSeparator(num.value.1, markers[0]);
      if sep.None? then None
      else
        var f := ScanFields(sep.value, markers[1..]);
        if f.None? then None else Some(Fields([num.value.0] + f.value.values, f.value.rest))
  }

  /** The anchored pattern `^\s*F1,...,Fn\s*Mn?\s*$`: the whole string is the field list. */
  predicate MatchesWhole(s: string, markers: seq<Option<char>>)
    requires |markers| > 0
  {
    match ScanFields(SkipSpaces(s), markers)
    case None => false
    case Some(f) => SkipSpaces(SkipMarker(SkipSpaces(f.rest), markers[|markers| - 1])) == []
  }

  /**
   * `s.match(pattern)` for the unanchored pattern: the captured numbers of the match that starts
   * leftmost, or `None`.
   */
  function Search(s: string, markers: seq<Option<char>>): (r: Option<seq<nat>>)
    requires |markers| > 0
    ensures r.Some? ==> |r.value| == |markers|
  {
    if s == [] then None
    else
      match ScanFields(s, markers)
      case Some(f) => Some(f.values)
      case None => Search(s[1..], markers)
  }

  // ---------------------------------------------------------------- rendering

  function MarkerText(m: Option<char>): string {
    if m.Some? then [m.value] else ""
  }

  /** `${v1}M1, ${v2}M2, ...`: the canonical text the normalisers produce. */
  function Render(values: seq<int>, markers: seq<Option<char>>): string
    requires |values| == |markers| > 0
  {
    IntToString(values[0]) + MarkerText(markers[0])
    + (if |values| == 1 then "" else ", " + Render(values[1..], markers[1..]))
  }

  lemma {:induction false} DigitRunOfDigitsThen(d: string, rest: string)
    requires AllDigits(d)
    requires rest == [] || !IsDigit(rest[0])
    ensures DigitRun(d + rest) == |d| && (d + rest)[..|d|] == d && (d + rest)[|d|..] == rest
  {
    if d != [] {
      assert (d + rest)[1..] == d[1..] + rest;
      DigitRunOfDigitsThen(d[1..], rest);
    }
  }

  lemma RenderStartsWithDigit(values: seq<nat>, markers: seq<Option<char>>)
    requires |values| == |markers| > 0
    ensures Render(values, markers) != [] && IsDigit(Render(values, markers)[0])
  {
    var d := DecimalString(values[0]);
    assert Render(values, markers)[0] == d[0];
  }

  lemma SkipSpacesNone(x: string)
    requires x == [] || !IsSpace(x[0])
    ensures SkipSpaces(x) == x
  {
  }

  /** A numeral followed by a non-digit is read back as its value. */
  lemma ScanNumberOf(d: string, after: string)
    requires d != [] && AllDigits(d)
    requires after == [] || !IsDigit(after[0])
    ensures ScanNumber(d + after) == Some((ParseDecimal(d), after))
  {
    DigitRunOfDigitsThen(d, after);
  }

  lemma SkipMarkerOf(m: Option<char>, rest: string)
    ensures SkipMarker(MarkerText(m) + rest, m) == rest
  {
  }

  /** `, ` followed by text that does not start with white space: a comma, then that text. */
  lemma CommaSpace(rest: string)
    requires rest == [] || !IsSpace(rest[0])
    ensures var t := ", " + rest; SkipSpaces(t) == t && t[0] == ',' && SkipSpaces(t[1..]) == rest
  {
    var t := ", " + rest;
    SkipSpacesNone(t);
    assert t[1..] == [' '] + rest;
    assert t[1..][1..] == rest;
    SkipSpacesNone(rest);
  }

  /** The separator as the normalisers write it, the marker then `, `, is one separator. */
  lemma ScanSeparatorOf(m: Option<char>, rest: string)
    requires m.Some? ==> !IsSpace(m.value)
    requires rest == [] || !IsSpace(rest[0])
    ensures ScanSeparator(MarkerText(m) + ", " + rest, m) == Some(rest)
  {
    var t := ", " + rest;
    var after := MarkerText(m) + t;
    assert MarkerText(m) + ", " + rest == after;
    assert after[0] == (if m.Some? then m.value else ',');
    SkipSpacesNone(after);
    SkipMarkerOf(m, t);
    CommaSpace(rest);
  }

  lemma ConsTail(s: seq<nat>)
    requires |s| > 0
    ensures [s[0]] + s[1..] == s
  {
  }

  /** Every field takes at least one digit and every separator two characters. */
  lemma {:induction false} RenderLength(values: seq<int>, markers: seq<Option<char>>)
    requires |values| == |markers| > 0
    ensures |Render(values, markers)| >= 3 * |values| - 2
    decreases |values|
  {
    if |values| > 1 {
      RenderLength(values[1..], markers[1..]);
    }
  }

  /** A list of two or more fields is the first field, its marker, `, ` and the rest of the list. */
  lemma RenderCons(values: seq<nat>, markers: seq<Option<char>>, tail: string)
    requires |values| == |markers| > 1
    ensures Render(values, markers) + tail
         == DecimalString(values[0]) + (MarkerText(markers[0]) + ", " + (Render(values[1..], markers[1..]) + tail))
  {
  }

  /** A number, a separator as the normalisers write it, and a field list that follows. */
  lemma ScanFieldsCons(v: nat, next: string, markers: seq<Option<char>>)
    requires |markers| > 1
    requires markers[0].Some? ==> !IsDigit(markers[0].value) && !IsSpace(markers[0].value)
    requires next == [] || !IsSpace(next[0])
    ensures ScanFields(DecimalString(v) + (MarkerText(markers[0]) + ", " + next), markers)
         == (var f := ScanFields(next, markers[1..]);
             if f.None? then None else Some(Fields([v] + f.value.values, f.value.rest)))
  {
    var after := MarkerText(markers[0]) + ", " + next;
    assert after[0] == (if markers[0].Some? then markers[0].value else ',');
    ParseDecimalString(v);
    ScanNumberOf(DecimalString(v), after);
    ScanSeparatorOf(markers[0], next);
  }

  lemma ScanRenderOne(values: seq<nat>, markers: seq<Option<char>>, tail: string)
    requires |values| == |markers| == 1
    requires var after := MarkerText(markers[0]) + tail; after == [] || !IsDigit(after[0])
    ensures ScanFields(Render(values, markers) + tail, markers) == Some(Fields(values, MarkerText(markers[0]) + tail))
  {
      var d := DecimalString(values[0]);
      assert Render(values, markers) + tail == d + (MarkerText(markers[0]) + tail);
      ParseDecimalString(values[0]);
      ScanNumberOf(d, MarkerText(markers[0]) + tail);
      assert values == [values[0]];
  }

  /** The inductive step of `ScanRender`: one more field in front of a list that scans. */
  lemma ScanRenderStep(values: seq<nat>, markers: seq<Option<char>>, tail: string, last: string)
    requires |values| == |markers| > 1
    requires markers[0].Some? ==> !IsDigit(markers[0].value) && !IsSpace(markers[0].value)
    requires ScanFields(Render(values[1..], markers[1..]) + tail, markers[1..]) == Some(Fields(values[1..], last))
    ensures ScanFields(Render(values, markers) + tail, markers) == Some(Fields(values, last))
  {
    var next := Render(values[1..], markers[1..]) + tail;
    RenderCons(values, markers, tail);
    RenderStartsWithDigit(values[1..], markers[1..]);
    ScanFieldsCons(values[0], next, markers);
    ConsTail(values);
  }

  /**
   * Scanning a rendered field list, followed by anything that does not continue the last number,
   * captures exactly the rendered values.
   */
  lemma {:induction false} ScanRender(values: seq<nat>, markers: seq<Option<char>>, tail: string)
    requires |values| == |markers| > 0 && GoodMarkers(markers)
    requires var after := MarkerText(markers[|markers| - 1]) + tail; after == [] || !IsDigit(after[0])
    ensures ScanFields(Render(values, markers) + tail, markers)
         == Some(Fields(values, MarkerText(markers[|markers| - 1]) + tail))
    decreases |values|
  {
    if |values| == 1 {
      ScanRenderOne(values, markers, tail);
    } else {
      var ms := markers[1..];
      assert ms[|ms| - 1] == markers[|markers| - 1];
      assert GoodMarkers(ms);
      ScanRender(values[1..], ms, tail);
      ScanRenderStep(values, markers, tail, MarkerText(markers[|markers| - 1]) + tail);
    }
  }

  /** A rendered field list is found at its very first position. */
  lemma SearchRender(values: seq<nat>, markers: seq<Option<char>>)
    requires |values| == |markers| > 0 && GoodMarkers(markers)
    requires var last := MarkerText(markers[|markers| - 1]); last == [] || !IsDigit(last[0])
    ensures Search(Render(values, markers), markers) == Some(values)
  {
    var s := Render(values, markers);
    assert s + "" == s;
    ScanRender(values, markers, "");
    RenderStartsWithDigit(values, markers);
  }

  /** A rendered field list matches the anchored pattern of its own markers. */
  lemma MatchesWholeRender(values: seq<nat>, markers: seq<Option<char>>)
    requires |values| == |markers| > 0 && GoodMarkers(markers)
    ensures MatchesWhole(Render(values, markers), markers)
  {
    var s := Render(values, markers);
    var last := markers[|markers| - 1];
    var m := MarkerText(last);
    assert s + "" == s;
    assert m + "" == m;
    assert last.Some? ==> !IsDigit(last.value) && !IsSpace(last.value);
    ScanRender(values, markers, "");
    RenderStartsWithDigit(values, markers);
    SkipSpacesNone(s);
    SkipSpacesNone(m);
    assert SkipMarker(m, last) == [];
  }

  /**
   * A number followed by a character that is neither white space, a comma, a digit nor the first
   * marker cannot start a list of two or more fields.
   */
  lemma ScanStopsAfterNumber(v: nat, after: string, markers: seq<Option<char>>)
    requires |markers| > 1 && after != []
    requires !IsSpace(after[0]) && after[0] != ',' && !IsDigit(after[0]) && markers[0] != Some(after[0])
    ensures ScanFields(DecimalString(v) + after, markers) == None
  {
    ScanNumberOf(DecimalString(v), after);
    SkipSpacesNone(after);
    assert SkipMarker(after, markers[0]) == after;
    assert ScanSeparator(after, markers[0]) == None;
  }

  // ---------------------------------------------------------------- fields without markers

  /** `n` fields without markers. */
  function Unmarked(n: nat): (r: seq<Option<char>>)
    ensures |r| == n && forall k | 0 <= k < n :: r[k] == None
  {
    if n == 0 then [] else [None] + Unmarked(n - 1)
  }

  /** A separator found with no marker is found the same way when a marker may precede it. */
  lemma ScanSeparatorAnyMarker(s: string, m: Option<char>)
    requires ScanSeparator(s, None).Some?
    requires m.Some? ==> m.value != ',' && !IsSpace(m.value)
    ensures ScanSeparator(s, m) == ScanSeparator(s, None)
  {
    var u := SkipSpaces(s);
    assert SkipSpaces(u) == u;
  }

  /** `ScanFields` of two or more fields once the first number and separator are found. */
  lemma ScanFieldsUnfold(s: string, markers: seq<Option<char>>, next: string)
    requires |markers| > 1 && ScanNumber(s).Some?
    requires ScanSeparator(ScanNumber(s).value.1, markers[0]) == Some(next)
    ensures ScanFields(s, markers)
         == (var f := ScanFields(next, markers[1..]);
             if f.None? then None else Some(Fields([ScanNumber(s).value.0] + f.value.values, f.value.rest)))
  {
  }

  /** Fields that match with no markers match with markers that never occur where the scanner looks for them. */
  lemma {:induction false} ScanFieldsAnyMarkers(s: string, markers: seq<Option<char>>)
    requires |markers| > 0 && GoodMarkers(markers)
    requires ScanFields(s, Unmarked(|markers|)).Some?
    ensures ScanFields(s, markers) == ScanFields(s, Unmarked(|markers|))
    decreases |markers|
  {
    var none := Unmarked(|markers|);
    if |markers| > 1 {
      var after := ScanNumber(s).value.1;
      var next := ScanSeparator(after, None).value;
      assert ScanSeparator(after, none[0]) == Some(next);
      assert ScanSeparator(after, markers[0]) == Some(next) by {
        ScanSeparatorAnyMarker(after, markers[0]);
      }
      ScanFieldsUnfold(s, none, next);
      ScanFieldsUnfold(s, markers, next);
      assert none[1..] == Unmarked(|markers| - 1);
      assert GoodMarkers(markers[1..]);
      ScanFieldsAnyMarkers(next, markers[1..]);
    }
  }

  /** Trailing text that is only white space is still only white space when a marker may open it. */
  lemma UnmarkedTail(rest: string, m: Option<char>)
    requires SkipSpaces(SkipMarker(SkipSpaces(rest), None)) == []
    ensures SkipSpaces(SkipMarker(SkipSpaces(rest), m)) == []
  {
    SkipSpacesNone(SkipSpaces(rest));
  }

  /** Text that is a whole list of unmarked fields is a whole list of fields with optional markers. */
  lemma MatchesWholeAnyMarkers(s: string, markers: seq<Option<char>>)
    requires |markers| > 0 && GoodMarkers(markers)
    requires MatchesWhole(s, Unmarked(|markers|))
    ensures MatchesWhole(s, markers)
  {
    var u := SkipSpaces(s);
    var none := Unmarked(|markers|);
    assert ScanFields(u, markers) == ScanFields(u, none) by {
      ScanFieldsAnyMarkers(u, markers);
    }
    UnmarkedTail(ScanFields(u, none).value.rest, markers[|markers| - 1]);
  }

  /** A character of a suffix is a character of the whole. */
  /** What `SkipSpaces` leaves is a suffix of its input. */
  lemma {:induction false} SkipSpacesSuffix(s: string)
    ensures SkipSpaces(s) == s[|s| - |SkipSpaces(s)|..]
  {
    if s != [] && IsSpace(s[0]) {
      SkipSpacesSuffix(s[1..]);
    }
  }

  lemma InSuffix(a: string, b: string, ch: char)
    requires |b| <= |a| && b == a[|a| - |b|..] && ch in b
    ensures ch in a
  {
    var k :| 0 <= k < |b| && b[k] == ch;
    assert a[|a| - |b| + k] == ch;
  }

  lemma SuffixOfSuffix(a: string, b: string, c: string)
    requires |b| <= |a| && b == a[|a| - |b|..]
    requires |c| <= |b| && c == b[|b| - |c|..]
    ensures c == a[|a| - |c|..]
  {
  }

  /** Skipping white space keeps every other character. */
  lemma {:induction false} SkipSpacesKeeps(x: string, ch: char)
    requires ch in SkipSpaces(x)
    ensures ch in x
  {
    if x != [] && IsSpace(x[0]) {
      SkipSpacesKeeps(x[1..], ch);
      assert x == [x[0]] + x[1..];
    }
  }

  /** A separator holds a comma. */
  lemma SeparatorComma(x: string, m: Option<char>)
    requires ScanSeparator(x, m).Some?
    ensures ',' in x
  {
    var u := SkipSpaces(x);
    var v := SkipMarker(u, m);
    var t := SkipSpaces(v);
    assert t[0] == ',' && t[0] in t;
    SkipSpacesKeeps(v, ',');
    assert ',' in u by {
      if v != u {
        assert u == [u[0]] + v;
      }
    }
    SkipSpacesKeeps(x, ',');
  }

  /** The separator that follows the first of several fields. */
  lemma FieldsSeparator(s: string, markers: seq<Option<char>>)
    requires |markers| > 1 && ScanFields(s, markers).Some?
    ensures ScanNumber(s).Some? && ScanSeparator(ScanNumber(s).value.1, markers[0]).Some?
  {
  }

  /** A list of two or more fields holds a comma. */
  lemma ScanFieldsComma(s: string, markers: seq<Option<char>>)
    requires |markers| > 1 && ScanFields(s, markers).Some?
    ensures ',' in s
  {
    FieldsSeparator(s, markers);
    var after := ScanNumber(s).value.1;
    SeparatorComma(after, markers[0]);
    assert after == s[DigitRun(s)..];
    InSuffix(s, after, ',');
  }
}
