/** The dashboard's category buttons: "All Tools" and then each category the tools use, sorted. */
module CategoryFilter {
  import opened Strings
  import opened Ordering
  import opened ToolsStore

  /** A category button: the id the store filters by and the label shown. */
  datatype Category = Category(id: string, title: string)

  const AllTools: Category := Category("all", "All Tools")

  /** `s.charAt(0).toUpperCase() + s.slice(1)`. */
  function Capitalize(s: string): (r: string)
    ensures |r| == |s| && (s != [] ==> r[0] == UpperChar(s[0]) && r[1..] == s[1..])
  {
    if s == [] then [] else [UpperChar(s[0])] + s[1..]
  }

  /** The non-empty categories the tools use. */
  ghost function UsedCategories(tools: seq<Tool>): set<string> {
    set t | t in tools && t.category != "" :: t.category
  }

  /**
   * The `Set` the `forEach` fills: each non-empty category once, in the order the tools first use it
   * (a JavaScript `Set` iterates in insertion order).
   */
  method CollectCategories(tools: seq<Tool>) returns (found: seq<string>)
    ensures Distinct(found)
    ensures forall c :: c in found <==> c in UsedCategories(tools)
  {
    found := [];
    for i := 0 to |tools|
      invariant Distinct(found)
      invariant forall c :: c in found <==> c in UsedCategories(tools[..i])
    {
      var category := tools[i].category;
      if category != "" && category !in found {
        found := found + [category];
      }
      assert tools[..i + 1] == tools[..i] + [tools[i]];
    }
    assert tools[..|tools|] == tools;
  }

  /** The buttons for a sorted list of category ids. */
  function Buttons(ids: seq<string>): (r: seq<Category>)
    ensures |r| == |ids|
    ensures forall i | 0 <= i < |ids| :: r[i] == Category(ids[i], Capitalize(ids[i]))
  {
    if ids == [] then [] else [Category(ids[0], Capitalize(ids[0]))] + Buttons(ids[1..])
  }

  /** What `generateCategoriesFromTools` promises of its list of buttons. */
  ghost predicate CategoryList(tools: seq<Tool>, r: seq<Category>) {
    && r != [] && r[0] == AllTools
    && (forall i | 1 <= i < |r| :: r[i].title == Capitalize(r[i].id))
    && StrictlySorted(Ids(r[1..]))
    && (forall c :: c in Ids(r[1..]) <==> c in UsedCategories(tools))
  }

  function Ids(cs: seq<Category>): (r: seq<string>)
    ensures |r| == |cs| && forall i | 0 <= i < |cs| :: r[i] == cs[i].id
  {
    if cs == [] then [] else [cs[0].id] + Ids(cs[1..])
  }

  /**
   * `generateCategoriesFromTools`: "All Tools" first, then one button per non-empty category in
   * ascending order, titled with its first letter upper-cased.
   */
  method GenerateCategoriesFromTools(tools: seq<Tool>) returns (r: seq<Category>)
    ensures CategoryList(tools, r)
  {
    var found := CollectCategories(tools);
    var sorted := SortDistinct(found);
    r := [AllTools] + Buttons(sorted);
    assert r[1..] == Buttons(sorted);
    assert Ids(r[1..]) == sorted;
  }

  /** Any two lists that keep those promises for the same tools are the same list. */
  lemma CategoryListUnique(tools: seq<Tool>, a: seq<Category>, b: seq<Category>)
    requires CategoryList(tools, a) && CategoryList(tools, b)
    ensures a == b
  {
    SortedUnique(Ids(a[1..]), Ids(b[1..]));
    assert |a| == |b|;
    forall i | 0 <= i < |a|
      ensures a[i] == b[i]
    {
      if i > 0 {
        assert Ids(a[1..])[i - 1] == Ids(b[1..])[i - 1];
      }
    }
  }

  lemma ShippedUsedCategories()
    ensures UsedCategories(ShippedTools) == {"converters", "graphics"}
  {
    assert ShippedTools[0] in ShippedTools && ShippedTools[2] in ShippedTools;
  }

  const ShippedButtons: seq<Category> :=
    [AllTools, Category("converters", "Converters"), Category("graphics", "Graphics")]

  lemma ShippedButtonsKeepPromises()
    ensures CategoryList(ShippedTools, ShippedButtons)
  {
    assert Capitalize("converters") == "Converters" && Capitalize("graphics") == "Graphics";
    assert Ids(ShippedButtons[1..]) == ["converters", "graphics"];
    assert Less("converters", "graphics");
    ShippedUsedCategories();
  }

  /** With the shipped tools the buttons read All Tools, Converters, Graphics. */
  lemma ShippedCategories(r: seq<Category>)
    requires CategoryList(ShippedTools, r)
    ensures r == ShippedButtons
  {
    ShippedButtonsKeepPromises();
    CategoryListUnique(ShippedTools, r, ShippedButtons);
  }
}
