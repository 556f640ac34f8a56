/** Light and dark icon paths of the tree view's tools. */
module Icon {
  import opened Strings

  /** `vscode.Uri.joinPath(base, ...segments)`, kept as the base and the segments joined onto it. */
  datatype Uri = Uri(base: string, segments: seq<string>)

  /** The `{light, dark}` pair handed to a tree item. */
  datatype IconPath = IconPath(light: Uri, dark: Uri)

  /** The icon's file name: the name itself when it already ends in `.svg`, else the name and `.svg`. */
  function SvgFileName(iconName: string): (r: string)
    ensures EndsWith(r, ".svg")
    ensures r == iconName || r == iconName + ".svg"
    ensures r == iconName <==> EndsWith(iconName, ".svg")
  {
    if EndsWith(iconName, ".svg") then iconName
    else
      assert (iconName + ".svg")[|iconName|..] == ".svg";
      iconName + ".svg"
  }

  /** Naming an icon file twice is the same as naming it once. */
  lemma SvgFileNameIdempotent(iconName: string)
    ensures SvgFileName(SvgFileName(iconName)) == SvgFileName(iconName)
  {
  }

  /**
   * `getIconPath`: both paths lie under `media/icons/<path>` of the extension and end in the `.svg`
   * file name; they differ only in the `light` / `dark` segment.
   */
  function GetIconPath(extensionUri: string, path: string, iconName: string): (r: IconPath)
    ensures r.light.base == extensionUri && r.dark.base == extensionUri
    ensures |r.light.segments| == 5 && r.light.segments[..3] == ["media", "icons", path]
    ensures r.light.segments[3] == "light" && r.dark.segments == r.light.segments[3 := "dark"]
    ensures r.light.segments[4] == SvgFileName(iconName) && EndsWith(r.light.segments[4], ".svg")
  {
    var fileName := SvgFileName(iconName);
    IconPath(Uri(extensionUri, ["media", "icons", path, "light", fileName]),
             Uri(extensionUri, ["media", "icons", path, "dark", fileName]))
  }

  /** `getToolIconPath`: the icon paths under `media/icons/tools`. */
  function GetToolIconPath(extensionUri: string, iconName: string): (r: IconPath)
    ensures r == GetIconPath(extensionUri, "tools", iconName)
    ensures r.light.segments[2] == "tools" && r.dark.segments[2] == "tools"
  {
    GetIconPath(extensionUri, "tools", iconName)
  }
}
