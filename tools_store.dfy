/** The dashboard's tool list and the category filter applied to it. */
module ToolsStore {

  /** A dashboard tool; its icon and colour classes are presentation only. */
  datatype Tool = Tool(id: string, name: string, description: string, category: string)

  /** The tools the dashboard ships with. */
  const ShippedTools: seq<Tool> := [
    Tool("json-yaml", "JSON - YAML Converter",
         "Convert JSON documents to YAML and vice-versa with real-time preview", "converters"),
    Tool("timestamp", "Timestamp Converter", "Convert UNIX timestamps to and from plain dates", "converters"),
    Tool("image-converter", "Image Format Converter", "Convert images to different formats", "graphics"),
    Tool("graphics-color-converter", "Color Converter", "Convert colors between formats", "graphics")
  ]

  /** The category selected when the dashboard opens. */
  const InitialActiveCategory: string := "all"

  /** The search results before any query. */
  const InitialQueryTools: seq<Tool> := []

  /** `tools.filter(tool => tool.category === category)`. */
  function InCategory(tools: seq<Tool>, category: string): (r: seq<Tool>)
    ensures |r| <= |tools|
    ensures forall t :: t in r <==> t in tools && t.category == category
  {
    if tools == [] then []
    else if tools[0].category == category then [tools[0]] + InCategory(tools[1..], category)
    else InCategory(tools[1..], category)
  }

  /** The filter keeps the order of the list: filtering a concatenation filters each part. */
  lemma {:induction false} InCategoryConcat(a: seq<Tool>, b: seq<Tool>, category: string)
    ensures InCategory(a + b, category) == InCategory(a, category) + InCategory(b, category)
  {
    if a != [] {
      assert (a + b)[1..] == a[1..] + b;
      InCategoryConcat(a[1..], b, category);
    } else {
      assert a + b == b;
    }
  }

  /** `filteredToolsAtom`: every tool for `"all"`, else the tools of the active category, in order. */
  function FilteredTools(tools: seq<Tool>, activeCategory: string): (r: seq<Tool>)
    ensures activeCategory == "all" ==> r == tools
    ensures forall t :: t in r <==> t in tools && (activeCategory == "all" || t.category == activeCategory)
    ensures (forall t | t in tools :: t.category != activeCategory) && activeCategory != "all" ==> r == []
  {
    if activeCategory == "all" then tools
    else
      var r := InCategory(tools, activeCategory);
      assert r != [] ==> r[0] in r;
      r
  }

  /** The opening dashboard lists every shipped tool. */
  lemma InitialFilterShowsAll()
    ensures FilteredTools(ShippedTools, InitialActiveCategory) == ShippedTools
  {
  }
}
