/**
 * The webview panel that hosts the toolbox: at most one is open at a time (the static
 * `ToolboxPanel.currentPanel` slot), it is told the colour theme, it forwards the webview's
 * notification requests to the window, and closing it releases its listeners.
 */
module ToolboxPanels {
  import opened Options
  import VscodeApi

  // ---------------------------------------------------------------- themes

  /** `ColorThemeKind` as the numbers VS Code gives its members. */
  const LightKind: int := 1
  const DarkKind: int := 2
  const HighContrastKind: int := 3
  const HighContrastLightKind: int := 4

  /** `_getThemeName`: the light kinds are "light", every other kind is "dark". */
  function ThemeName(kind: int): (r: string)
    ensures r == "light" || r == "dark"
    ensures r == "light" <==> kind == LightKind || kind == HighContrastLightKind
  {
    if kind == LightKind then "light"
    else if kind == DarkKind then "dark"
    else if kind == HighContrastKind then "dark"
    else if kind == HighContrastLightKind then "light"
    else "dark"
  }

  // ---------------------------------------------------------------- messages

  /** A message the extension posts to the webview. */
  datatype PanelMessage =
    | ThemeChanged(theme: string, themeKind: int)
    | Navigate(route: string)

  /** The window notifications the panel can raise. */
  datatype Severity = Information | Warning | Error

  datatype Action = Show(severity: Severity) | ResendTheme

  /** The switch of `_setWebviewMessageListener`: what a command asks for, `None` when nothing. */
  function Dispatch(command: string): (r: Option<Action>)
    ensures r == Some(ResendTheme) <==> command == "getTheme"
    ensures r.None? <==> command !in {"showInformationMessage", "showWarningMessage", "showErrorMessage", "getTheme"}
  {
    if command == "showInformationMessage" then Some(Show(Information))
    else if command == "showWarningMessage" then Some(Show(Warning))
    else if command == "showErrorMessage" then Some(Show(Error))
    else if command == "getTheme" then Some(ResendTheme)
    else None
  }

  /** The notification a toast of the webview is meant to become. */
  function ToastSeverity(kind: VscodeApi.ToastKind): Severity {
    match kind
    case Info => Information
    case Success => Information
    case Warning => Warning
    case Error => Error
  }

  /**
   * Every toast the webview raises reaches the window as the matching notification: the command
   * `toast` posts is one this switch handles.
   */
  lemma ToastReachesWindow(kind: VscodeApi.ToastKind)
    ensures Dispatch(VscodeApi.ToastCommand(kind)) == Some(Show(ToastSeverity(kind)))
  {
    var c := VscodeApi.ToastCommand(kind);
    if kind == VscodeApi.Info || kind == VscodeApi.Success {
      assert c == "showInformationMessage";
    } else if kind == VscodeApi.Warning {
      assert c == "showWarningMessage";
    } else {
      assert c == "showErrorMessage";
    }
  }

  // ---------------------------------------------------------------- disposables

  /** What the panel registers for release on close, named by what it listens for. */
  datatype Disposable = PanelClosed | WebviewMessages | ThemeChanges

  /** The order `pop` hands the entries out: last first. */
  function Reversed<T>(s: seq<T>): seq<T> {
    if s == [] then [] else [s[|s| - 1]] + Reversed(s[..|s| - 1])
  }

  /** Popping until empty releases every entry exactly once. */
  lemma {:induction false} ReversedPermutes<T>(s: seq<T>)
    ensures |Reversed(s)| == |s|
    ensures multiset(Reversed(s)) == multiset(s)
    ensures forall i | 0 <= i < |s| :: Reversed(s)[i] == s[|s| - 1 - i]
  {
    if s != [] {
      ReversedPermutes(s[..|s| - 1]);
      assert s == s[..|s| - 1] + [s[|s| - 1]];
    }
  }

  /** The data the page starts from: `window.__INITIAL_DATA__`. */
  datatype InitialData = InitialData(route: Option<string>, viewType: string, initialTheme: string)

  const ViewType := "open"
  const PanelTitle := "Dev Toolbox"

  class ToolboxPanel {
    /** `_disposables`, in the order pushed. */
    var disposables: seq<Disposable>
    /** The disposables released by `dispose`, in release order. */
    var released: seq<Disposable>
    /** The messages posted to the webview, in order. */
    var posted: seq<PanelMessage>
    var initialData: InitialData
    /** How many times the panel was revealed after it was created. */
    var revealed: nat
    var panelDisposed: bool

    /**
     * The private constructor: it registers the close listener, posts the theme, writes the page
     * with its initial data, then registers the message listener and the theme listener.
     */
    constructor(themeKind: int, initialRoute: Option<string>)
      ensures disposables == [PanelClosed, WebviewMessages, ThemeChanges]
      ensures posted == [ThemeChanged(ThemeName(themeKind), themeKind)]
      ensures initialData == InitialData(initialRoute, ViewType, ThemeName(themeKind))
      ensures released == [] && revealed == 0 && !panelDisposed
    {
      disposables := [PanelClosed];
      posted := [ThemeChanged(ThemeName(themeKind), themeKind)];
      initialData := InitialData(initialRoute, ViewType, ThemeName(themeKind));
      disposables := disposables + [WebviewMessages];
      disposables := disposables + [ThemeChanges];
      released, revealed, panelDisposed := [], 0, false;
    }

    /** `_updateTheme`: post the current theme's name and kind. */
    method UpdateTheme(themeKind: int)
      modifies this
      ensures posted == old(posted) + [ThemeChanged(ThemeName(themeKind), themeKind)]
      ensures disposables == old(disposables) && released == old(released)
      ensures initialData == old(initialData) && revealed == old(revealed) && panelDisposed == old(panelDisposed)
    {
      posted := posted + [ThemeChanged(ThemeName(themeKind), themeKind)];
    }
  }

  /**
   * The window the extension runs in, holding the static `ToolboxPanel.currentPanel` slot, the
   * active theme and the notifications shown.
   */
  class Workbench {
    var currentPanel: ToolboxPanel?
    var themeKind: int
    /** Panels made by `window.createWebviewPanel`. */
    var created: nat
    /** Notifications shown, in order. */
    var shown: seq<(Severity, string)>

    constructor(themeKind: int)
      ensures currentPanel == null && this.themeKind == themeKind && created == 0 && shown == []
    {
      currentPanel := null;
      this.themeKind := themeKind;
      created, shown := 0, [];
    }

    /**
     * `ToolboxPanel.render`: an open panel is revealed and, for a non-empty route, told to
     * navigate; otherwise a new panel is made and becomes the current one.
     */
    method Render(initialRoute: Option<string>)
      modifies this, currentPanel
      ensures themeKind == old(themeKind) && shown == old(shown)
      ensures old(currentPanel) != null ==>
                currentPanel == old(currentPanel) && created == old(created)
                && currentPanel.revealed == old(currentPanel.revealed) + 1
                && currentPanel.posted == old(currentPanel.posted)
                   + (if initialRoute.Some? && initialRoute.value != "" then [Navigate(initialRoute.value)] else [])
                && currentPanel.disposables == old(currentPanel.disposables)
                && currentPanel.released == old(currentPanel.released)
                && currentPanel.initialData == old(currentPanel.initialData)
                && currentPanel.panelDisposed == old(currentPanel.panelDisposed)
      ensures old(currentPanel) == null ==>
                currentPanel != null && fresh(currentPanel) && created == old(created) + 1
                && currentPanel.disposables == [PanelClosed, WebviewMessages, ThemeChanges]
                && currentPanel.posted == [ThemeChanged(ThemeName(themeKind), themeKind)]
                && currentPanel.initialData == InitialData(initialRoute, ViewType, ThemeName(themeKind))
                && currentPanel.released == [] && currentPanel.revealed == 0 && !currentPanel.panelDisposed
    {
      if currentPanel != null {
        currentPanel.revealed := currentPanel.revealed + 1;
        if initialRoute.Some? && initialRoute.value != "" {
          currentPanel.posted := currentPanel.posted + [Navigate(initialRoute.value)];
        }
      } else {
        created := created + 1;
        var panel := new ToolboxPanel(themeKind, initialRoute);
        currentPanel := panel;
      }
    }

    /**
     * `dispose`: the slot is emptied, the panel closed, and the disposables popped and released
     * one by one until none is left.
     */
    method Dispose(panel: ToolboxPanel)
      modifies this, panel
      ensures currentPanel == null && panel.panelDisposed
      ensures panel.disposables == [] && panel.released == old(panel.released) + Reversed(old(panel.disposables))
      ensures panel.posted == old(panel.posted) && panel.initialData == old(panel.initialData)
      ensures panel.revealed == old(panel.revealed)
      ensures themeKind == old(themeKind) && created == old(created) && shown == old(shown)
    {
      currentPanel := null;
      panel.panelDisposed := true;
      while |panel.disposables| > 0
        invariant panel.released + Reversed(panel.disposables) == old(panel.released) + Reversed(old(panel.disposables))
        invariant panel.posted == old(panel.posted) && panel.initialData == old(panel.initialData)
        invariant panel.revealed == old(panel.revealed) && panel.panelDisposed
        invariant currentPanel == null && themeKind == old(themeKind) && created == old(created) && shown == old(shown)
        decreases |panel.disposables|
      {
        var last := panel.disposables[|panel.disposables| - 1];
        panel.disposables := panel.disposables[..|panel.disposables| - 1];
        panel.released := panel.released + [last];
      }
    }

    /** The registered theme listener: the active theme changed, and the panel is told. */
    method ChangeTheme(panel: ToolboxPanel, kind: int)
      requires ThemeChanges in panel.disposables
      modifies this, panel
      ensures themeKind == kind && currentPanel == old(currentPanel) && created == old(created) && shown == old(shown)
      ensures panel.posted == old(panel.posted) + [ThemeChanged(ThemeName(kind), kind)]
      ensures panel.disposables == old(panel.disposables) && panel.released == old(panel.released)
      ensures panel.initialData == old(panel.initialData) && panel.revealed == old(panel.revealed)
      ensures panel.panelDisposed == old(panel.panelDisposed)
    {
      themeKind := kind;
      panel.UpdateTheme(kind);
    }

    /** The message listener: show a notification, re-send the theme, or ignore the message. */
    method HandleMessage(panel: ToolboxPanel, message: VscodeApi.Message)
      requires WebviewMessages in panel.disposables
      modifies this, panel
      ensures themeKind == old(themeKind) && currentPanel == old(currentPanel) && created == old(created)
      ensures panel.disposables == old(panel.disposables) && panel.released == old(panel.released)
      ensures panel.initialData == old(panel.initialData) && panel.revealed == old(panel.revealed)
      ensures panel.panelDisposed == old(panel.panelDisposed)
      ensures match Dispatch(message.command)
              case Some(Show(severity)) => shown == old(shown) + [(severity, message.text)] && panel.posted == old(panel.posted)
              case Some(ResendTheme) => shown == old(shown)
                                        && panel.posted == old(panel.posted) + [ThemeChanged(ThemeName(themeKind), themeKind)]
              case None => shown == old(shown) && panel.posted == old(panel.posted)
    {
      match Dispatch(message.command)
      case Some(Show(severity)) =>
        shown := shown + [(severity, message.text)];
      case Some(ResendTheme) =>
        panel.UpdateTheme(themeKind);
      case None =>
    }
  }

  /** Rendering twice makes one panel: the second call only reveals it. */
  method RenderTwice(bench: Workbench, route: Option<string>)
    requires bench.currentPanel == null
    modifies bench
    ensures bench.currentPanel != null && bench.created == old(bench.created) + 1
    ensures bench.currentPanel.revealed == 1
  {
    bench.Render(route);
    bench.Render(route);
  }

  /** Closing the panel releases all three listeners, the theme listener first. */
  method OpenThenClose(bench: Workbench) returns (released: seq<Disposable>)
    requires bench.currentPanel == null
    modifies bench
    ensures released == [ThemeChanges, WebviewMessages, PanelClosed]
    ensures bench.currentPanel == null
  {
    bench.Render(None);
    var panel := bench.currentPanel;
    bench.Dispose(panel);
    released := panel.released;
    var pushed := [PanelClosed, WebviewMessages, ThemeChanges];
    ReversedPermutes(pushed);
    assert Reversed(pushed) == [ThemeChanges, WebviewMessages, PanelClosed];
  }
}
