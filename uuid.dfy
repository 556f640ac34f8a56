/**
 * The UUID generator page: how many identifiers a request yields, the v4-shaped fallback that fills
 * a template from random nibbles, and the newline-joined output.
 */
module Uuid {
  import opened Strings

  /** A value of `Math.random() * 16 | 0`. */
  type Nibble = d: nat | d < 16

  /** A JavaScript number as `Number(input.value)` can give it. */
  datatype JsNumber = NaN | Finite(value: real) | PosInfinity | NegInfinity

  const Template: string := "xxxxxxxx-xxxx-4xxx-yxxx-xxxxxxxxxxxx"

  /** Template characters the fallback replaces. */
  predicate IsPlaceholder(c: char) {
    c == 'x' || c == 'y'
  }

  /** How many placeholders `t` holds: how many nibbles filling it reads. */
  function Placeholders(t: string): (n: nat)
    ensures n <= |t|
  {
    if t == [] then 0 else (if IsPlaceholder(t[0]) then 1 else 0) + Placeholders(t[1..])
  }

  /** `(r & 0x3) | 0x8` for a nibble: one of 8, 9, 10, 11. */
  function VariantNibble(r: Nibble): (v: Nibble)
    ensures 8 <= v <= 11 && v % 4 == r % 4
  {
    r % 4 + 8
  }

  /**
   * `template.replace(/[xy]/g, …)`: each `x` becomes the lower-case hex digit of the next nibble,
   * each `y` that of its variant nibble, every other character is copied.
   */
  function Fill(t: string, nibbles: seq<Nibble>): (r: string)
    requires Placeholders(t) <= |nibbles|
    ensures |r| == |t|
    ensures forall i | 0 <= i < |t| && !IsPlaceholder(t[i]) :: r[i] == t[i]
    ensures forall i | 0 <= i < |t| && IsPlaceholder(t[i]) :: IsHexDigit(r[i]) && !('A' <= r[i] <= 'F')
    ensures forall i | 0 <= i < |t| && t[i] == 'y' :: r[i] in "89ab"
  {
    if t == [] then []
    else
      var c := t[0];
      var rest := if IsPlaceholder(c) then Fill(t[1..], nibbles[1..]) else Fill(t[1..], nibbles);
      var head := if c == 'x' then LowerHexDigit(nibbles[0])
                  else if c == 'y' then LowerHexDigit(VariantNibble(nibbles[0]))
                  else c;
      assert c == 'y' ==> head in "89ab" by {
        if c == 'y' {
          VariantDigit(VariantNibble(nibbles[0]));
        }
      }
      var r := [head] + rest;
      assert forall i | 1 <= i < |t| :: t[i] == t[1..][i - 1] && r[i] == rest[i - 1];
      r
  }

  /** The digit of a variant nibble is one of 8, 9, a, b. */
  lemma VariantDigit(v: Nibble)
    requires 8 <= v <= 11
    ensures LowerHexDigit(v) in "89ab"
  {
  }

  lemma {:induction false} PlaceholdersConcat(a: string, b: string)
    ensures Placeholders(a + b) == Placeholders(a) + Placeholders(b)
  {
    if a != [] {
      assert (a + b)[1..] == a[1..] + b;
      PlaceholdersConcat(a[1..], b);
    } else {
      assert a + b == b;
    }
  }

  /** `generateUUID`'s fallback, reading its random digits from `nibbles`. */
  function FallbackUuid(nibbles: seq<Nibble>): string
    requires |nibbles| >= TemplateNibbles
  {
    TemplateLayout();
    FilledLayout(Template, nibbles);
    Fill(Template, nibbles)
  }

  /** Positions of the template that are not placeholders. */
  predicate Fixed(i: int) {
    i == 8 || i == 13 || i == 14 || i == 18 || i == 23
  }

  /** The template: dashes at 8, 13, 18 and 23, `4` at 14, `y` at 19, `x` everywhere else. */
  predicate UuidLayout(t: string) {
    && |t| == 36
    && t[8] == '-' && t[13] == '-' && t[18] == '-' && t[23] == '-' && t[14] == '4' && t[19] == 'y'
    && forall i | 0 <= i < 36 && !Fixed(i) :: IsPlaceholder(t[i])
  }

  lemma TemplateLayout()
    ensures UuidLayout(Template)
  {
  }

  /** How many nibbles the fallback reads: one per placeholder of the template. */
  const TemplateNibbles: nat := 31

  lemma {:induction false} AllPlaceholders(t: string)
    requires forall i | 0 <= i < |t| :: IsPlaceholder(t[i])
    ensures Placeholders(t) == |t|
  {
    if t != [] {
      AllPlaceholders(t[1..]);
    }
  }

  lemma {:induction false} NoPlaceholders(t: string)
    requires forall i | 0 <= i < |t| :: !IsPlaceholder(t[i])
    ensures Placeholders(t) == 0
  {
    if t != [] {
      NoPlaceholders(t[1..]);
    }
  }

  /** Placeholders of `t[a..c]` split at `b`. */
  lemma PlaceholdersSplit(t: string, a: nat, b: nat, c: nat)
    requires a <= b <= c <= |t|
    ensures Placeholders(t[a..c]) == Placeholders(t[a..b]) + Placeholders(t[b..c])
  {
    assert t[a..c] == t[a..b] + t[b..c];
    PlaceholdersConcat(t[a..b], t[b..c]);
  }

  /** `t[a..b]` counts all its characters when all are placeholders and none when none is. */
  lemma PlaceholdersRun(t: string, a: nat, b: nat)
    requires a <= b <= |t|
    ensures (forall i | a <= i < b :: IsPlaceholder(t[i])) ==> Placeholders(t[a..b]) == b - a
    ensures (forall i | a <= i < b :: !IsPlaceholder(t[i])) ==> Placeholders(t[a..b]) == 0
  {
    var r := t[a..b];
    assert forall j | 0 <= j < |r| :: r[j] == t[a + j];
    if forall i | a <= i < b :: IsPlaceholder(t[i]) {
      AllPlaceholders(r);
    }
    if forall i | a <= i < b :: !IsPlaceholder(t[i]) {
      NoPlaceholders(r);
    }
  }

  /** A string with the template's layout holds 31 placeholders: all but its five fixed positions. */
  lemma LayoutPlaceholders(t: string)
    requires UuidLayout(t)
    ensures Placeholders(t) == TemplateNibbles
  {
    assert t == t[0..36];
    PlaceholdersSplit(t, 0, 8, 36);
    PlaceholdersSplit(t, 8, 9, 36);
    PlaceholdersSplit(t, 9, 13, 36);
    PlaceholdersSplit(t, 13, 15, 36);
    PlaceholdersSplit(t, 15, 18, 36);
    PlaceholdersSplit(t, 18, 19, 36);
    PlaceholdersSplit(t, 19, 23, 36);
    PlaceholdersSplit(t, 23, 24, 36);
    PlaceholdersRun(t, 0, 8);
    PlaceholdersRun(t, 8, 9);
    PlaceholdersRun(t, 9, 13);
    PlaceholdersRun(t, 13, 15);
    PlaceholdersRun(t, 15, 18);
    PlaceholdersRun(t, 18, 19);
    PlaceholdersRun(t, 19, 23);
    PlaceholdersRun(t, 23, 24);
    PlaceholdersRun(t, 24, 36);
  }

  /**
   * The v4 shape: 36 characters, with `-` at 8, 13, 18 and 23, the version digit `4` at 14, a variant digit among
   * 8, 9, a, b at 19, and a lower-case hex digit everywhere else.
   */
  predicate UuidShape(u: string) {
    && |u| == 36
    && u[8] == '-' && u[13] == '-' && u[18] == '-' && u[23] == '-'
    && u[14] == '4' && u[19] in "89ab"
    && forall i | 0 <= i < 36 && !Fixed(i) :: IsHexDigit(u[i]) && !('A' <= u[i] <= 'F')
  }

  /** A fallback identifier has the v4 shape, whenever the template's 31 nibbles are drawn. */
  lemma FallbackShape(nibbles: seq<Nibble>)
    requires |nibbles| >= TemplateNibbles
    ensures UuidShape(FallbackUuid(nibbles))
  {
    TemplateLayout();
    FilledLayout(Template, nibbles);
  }

  lemma FilledLayout(t: string, nibbles: seq<Nibble>)
    requires UuidLayout(t) && |nibbles| >= TemplateNibbles
    ensures Placeholders(t) <= |nibbles|
    ensures UuidShape(Fill(t, nibbles))
  {
    LayoutPlaceholders(t);
  }

  /** Fallback identifiers hold no line break. */
  lemma FallbackSingleLine(nibbles: seq<Nibble>)
    requires |nibbles| >= TemplateNibbles
    ensures '\n' !in FallbackUuid(nibbles)
  {
    FallbackShape(nibbles);
    var u := FallbackUuid(nibbles);
    forall i | 0 <= i < |u|
      ensures u[i] != '\n'
    {
      if !Fixed(i) {
        assert IsHexDigit(u[i]);
      }
    }
  }

  /** Where an identifier comes from: `crypto.randomUUID()` when it exists, else the template fallback. */
  datatype UuidDraw = Native(uuid: string) | Fallback(nibbles: seq<Nibble>)

  predicate ValidDraw(d: UuidDraw) {
    d.Fallback? ==> |d.nibbles| >= TemplateNibbles
  }

  function GenerateUuid(d: UuidDraw): (r: string)
    requires ValidDraw(d)
    ensures d.Fallback? ==> |r| == 36 && r[14] == '4'
  {
    match d
    case Native(u) => u
    case Fallback(ns) => FallbackShape(ns); FallbackUuid(ns)
  }

  // ---------------------------------------------------------------- count and output

  /**
   * `Math.max(1, Math.min(1000, Math.floor(count || 1)))`: a count in [1, 1000]; zero and NaN count
   * as one.
   */
  function ClampCount(count: JsNumber): (n: int)
    ensures 1 <= n <= 1000
    ensures count.Finite? && 1 <= count.value.Floor <= 1000 ==> n == count.value.Floor
    ensures (count.Finite? && count.value.Floor > 1000) || count.PosInfinity? ==> n == 1000
    ensures count.NaN? || count.NegInfinity? || (count.Finite? && count.value.Floor < 1) ==> n == 1
  {
    var c := if count.NaN? || count == Finite(0.0) then Finite(1.0) else count;
    match c
    case Finite(v) => if v.Floor > 1000 then 1000 else if v.Floor < 1 then 1 else v.Floor
    case PosInfinity => 1000
    case NegInfinity => 1
    case NaN => 1
  }

  /** `items.join(sep)`. */
  function Join(items: seq<string>, sep: string): string {
    if items == [] then ""
    else if |items| == 1 then items[0]
    else items[0] + sep + Join(items[1..], sep)
  }

  /** `s.split("\n")`: the pieces between line breaks, one more than there are line breaks. */
  function Lines(s: string): (r: seq<string>)
    ensures |r| >= 1
  {
    if s == [] then [""]
    else
      var rest := Lines(s[1..]);
      if s[0] == '\n' then [""] + rest else [[s[0]] + rest[0]] + rest[1..]
  }

  /** A line with no break in it, a break and more text split into that line and the rest's lines. */
  lemma {:induction false} LinesAfterLine(a: string, t: string)
    requires '\n' !in a
    ensures Lines(a + "\n" + t) == [a] + Lines(t)
  {
    if a == [] {
      assert a + "\n" + t == "\n" + t;
      assert ("\n" + t)[1..] == t;
    } else {
      assert (a + "\n" + t)[1..] == a[1..] + "\n" + t;
      LinesAfterLine(a[1..], t);
      assert [a[0]] + a[1..] == a;
    }
  }

  lemma {:induction false} LinesOfLine(a: string)
    requires '\n' !in a
    ensures Lines(a) == [a]
  {
    if a != [] {
      LinesOfLine(a[1..]);
      assert [a[0]] + a[1..] == a;
    }
  }

  /**
   * The output lists the identifiers one per line: splitting it at line breaks gives them back, so
   * there are exactly `|items| - 1` separators and no trailing one.
   */
  lemma {:induction false} JoinThenLines(items: seq<string>)
    requires items != [] && forall k | 0 <= k < |items| :: '\n' !in items[k]
    ensures Lines(Join(items, "\n")) == items
  {
    if |items| == 1 {
      LinesOfLine(items[0]);
    } else {
      JoinThenLines(items[1..]);
      LinesAfterLine(items[0], Join(items[1..], "\n"));
    }
  }

  /** The identifiers a run of draws yields. */
  function Uuids(draws: seq<UuidDraw>): (r: seq<string>)
    requires forall k | 0 <= k < |draws| :: ValidDraw(draws[k])
    ensures |r| == |draws| && forall k | 0 <= k < |draws| :: r[k] == GenerateUuid(draws[k])
  {
    if draws == [] then [] else [GenerateUuid(draws[0])] + Uuids(draws[1..])
  }

  /** The page: the requested count and the output text. */
  class UuidGeneratorPage {
    var count: JsNumber
    var output: string

    constructor()
      ensures count == Finite(1.0) && output == ""
    {
      count := Finite(1.0);
      output := "";
    }

    /** The count field's `onChange`. */
    method SetCount(value: JsNumber)
      modifies this
      ensures count == value && output == old(output)
    {
      count := value;
    }

    /** The text area's `onChange`. */
    method SetOutput(value: string)
      modifies this
      ensures output == value && count == old(count)
    {
      output := value;
    }

    /**
     * `handleGenerate`: draws `ClampCount(count)` identifiers, one per draw in order, and shows them
     * joined by line breaks.
     */
    method HandleGenerate(draws: seq<UuidDraw>)
      requires |draws| >= ClampCount(count) && forall k | 0 <= k < |draws| :: ValidDraw(draws[k])
      modifies this
      ensures count == old(count)
      ensures output == Join(Uuids(draws[..ClampCount(count)]), "\n")
    {
      var n := ClampCount(count);
      var items: seq<string> := [];
      for i := 0 to n
        invariant |items| == i && forall k | 0 <= k < i :: items[k] == GenerateUuid(draws[k])
      {
        items := items + [GenerateUuid(draws[i])];
      }
      assert items == Uuids(draws[..n]);
      output := Join(items, "\n");
    }
  }

  /** With fallback draws, the output holds exactly `ClampCount(count)` identifiers, one per line. */
  lemma FallbackOutputLines(draws: seq<UuidDraw>, n: int)
    requires 1 <= n <= |draws| && forall k | 0 <= k < |draws| :: ValidDraw(draws[k]) && draws[k].Fallback?
    ensures Lines(Join(Uuids(draws[..n]), "\n")) == Uuids(draws[..n])
    ensures |Lines(Join(Uuids(draws[..n]), "\n"))| == n
  {
    var items := Uuids(draws[..n]);
    forall k | 0 <= k < |items|
      ensures '\n' !in items[k]
    {
      FallbackSingleLine(draws[k].nibbles);
    }
    JoinThenLines(items);
  }
}
