/** The explorer tree of the toolbox: one category of tools, its children and their parents. */
module TreeProvider {
  import opened Options
  import opened Icon

  datatype CollapsibleState = NotCollapsible | Collapsed | Expanded

  /** A node of the tree; `title` is the tree item's label. */
  datatype ToolItem = ToolItem(id: string, title: string, collapsibleState: Option<CollapsibleState>,
                               contextValue: string, iconPath: Option<IconPath>,
                               children: Option<seq<ToolItem>>)

  /** `category.children?.some(child => child.id === id)`. */
  predicate HasChild(category: ToolItem, id: string) {
    category.children.Some? && exists k | 0 <= k < |category.children.value| :: category.children.value[k].id == id
  }

  /** The first category of `data` that has a child with the id `id`. */
  function ParentIn(data: seq<ToolItem>, id: string): (r: Option<ToolItem>)
    ensures r.Some? <==> exists i | 0 <= i < |data| :: HasChild(data[i], id)
    ensures r.Some? ==> exists i | 0 <= i < |data| ::
              data[i] == r.value && HasChild(data[i], id) && forall j | 0 <= j < i :: !HasChild(data[j], id)
  {
    if data == [] then None
    else if HasChild(data[0], id) then Some(data[0])
    else
      var r := ParentIn(data[1..], id);
      assert forall i | 1 <= i < |data| :: data[i] == data[1..][i - 1];
      r
  }

  /** The tree `loadToolboxData` builds. */
  function LoadedData(extensionUri: string): seq<ToolItem> {
    [ToolItem("converters", "Converters", Some(Collapsed), "category", None,
              Some([ToolItem("json-yaml", "JSON - YAML", None, "tool",
                             Some(GetToolIconPath(extensionUri, "horizontal-arrows-symbolic")), None)]))]
  }

  /**
   * The loaded tree has one root, the "converters" category, whose one child is the "json-yaml"
   * tool; the tool's parent is that category and the category has no parent.
   */
  lemma LoadedTree(extensionUri: string)
    ensures var data := LoadedData(extensionUri);
            && |data| == 1 && data[0].id == "converters" && data[0].children.Some?
            && |data[0].children.value| == 1 && data[0].children.value[0].id == "json-yaml"
            && ParentIn(data, "json-yaml") == Some(data[0])
            && ParentIn(data, "converters") == None
  {
    var data := LoadedData(extensionUri);
    assert data[0].children.value[0].id == "json-yaml";
    assert !HasChild(data[0], "converters");
  }

  class ToolboxTreeDataProvider {
    var toolboxData: seq<ToolItem>
    const extensionUri: string

    /** The constructor loads the tree. */
    constructor(extensionUri: string)
      ensures this.extensionUri == extensionUri && toolboxData == LoadedData(extensionUri)
    {
      this.extensionUri := extensionUri;
      toolboxData := LoadedData(extensionUri);
    }

    /** `loadToolboxData`: replaces the tree with the one category and its tool. */
    method LoadToolboxData()
      modifies this
      ensures toolboxData == LoadedData(extensionUri)
    {
      toolboxData := LoadedData(extensionUri);
    }

    /** `getTreeItem` hands the element back as its own tree item. */
    function GetTreeItem(element: ToolItem): (r: ToolItem)
      ensures r == element
    {
      element
    }

    /** `resolveTreeItem` adds nothing to the element. */
    function ResolveTreeItem(element: ToolItem): (r: ToolItem)
      ensures r == element
    {
      element
    }

    /** `getChildren`: the roots without an element, else the element's children or none. */
    function GetChildren(element: Option<ToolItem>): (r: seq<ToolItem>)
      reads this
      ensures element.None? ==> r == toolboxData
      ensures element.Some? && element.value.children.None? ==> r == []
      ensures element.Some? && element.value.children.Some? ==> r == element.value.children.value
    {
      match element
      case None => toolboxData
      case Some(e) => e.children.GetOr([])
    }

    /** `getParent`: the first root category that holds a child with the element's id, if any. */
    method GetParent(element: ToolItem) returns (r: Option<ToolItem>)
      ensures r == ParentIn(toolboxData, element.id)
    {
      for i := 0 to |toolboxData|
        invariant forall j | 0 <= j < i :: !HasChild(toolboxData[j], element.id)
      {
        if HasChild(toolboxData[i], element.id) {
          r := Some(toolboxData[i]);
          ParentIsFirst(toolboxData, element.id, i);
          return;
        }
      }
      r := None;
    }
  }

  /** The category at the first index with a matching child is the parent. */
  lemma ParentIsFirst(data: seq<ToolItem>, id: string, i: int)
    requires 0 <= i < |data| && HasChild(data[i], id)
    requires forall j | 0 <= j < i :: !HasChild(data[j], id)
    ensures ParentIn(data, id) == Some(data[i])
  {
  }
}
