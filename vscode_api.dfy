/**
 * The webview's handle on VS Code: messages to the extension, persisted state (kept in the
 * browser's local storage when the page runs outside VS Code), the toast shortcuts, and the rule
 * that turns an image `src` into a URI the webview may load.
 */
module VscodeApi {
  import opened Options
  import opened Strings

  /** A `{command, text}` message posted to the extension. */
  datatype Message = Message(command: string, text: string)

  datatype ToastKind = Info | Success | Warning | Error

  /** The command each toast posts: info and success share the information message. */
  function ToastCommand(kind: ToastKind): (r: string)
    ensures r == "showInformationMessage" <==> kind == Info || kind == Success
    ensures r == "showWarningMessage" <==> kind == Warning
    ensures r == "showErrorMessage" <==> kind == Error
  {
    match kind
    case Info => "showInformationMessage"
    case Success => "showInformationMessage"
    case Warning => "showWarningMessage"
    case Error => "showErrorMessage"
  }

  /**
   * `VSCodeAPIWrapper`. `inHost` says whether `acquireVsCodeApi` existed when it was built; the
   * host's own state and message queue, the console and the `vscodeState` item of local storage are
   * fields. `T` is the type of the persisted state; its JSON text is not modelled.
   */
  class VSCodeAPIWrapper<T> {
    const inHost: bool
    var hostState: Option<T>
    var hostMessages: seq<Message>
    var consoleLog: seq<Message>
    var storedState: Option<T>

    /** Built with whatever state the host and the browser already keep. */
    constructor(inHost: bool, hostState: Option<T>, storedState: Option<T>)
      ensures this.inHost == inHost && this.hostState == hostState && this.storedState == storedState
      ensures hostMessages == [] && consoleLog == []
    {
      this.inHost := inHost;
      this.hostState := hostState;
      this.storedState := storedState;
      hostMessages := [];
      consoleLog := [];
    }

    /** `postMessage`: to the extension inside VS Code, to the console outside it. */
    method PostMessage(message: Message)
      modifies this
      ensures inHost ==> hostMessages == old(hostMessages) + [message] && consoleLog == old(consoleLog)
      ensures !inHost ==> consoleLog == old(consoleLog) + [message] && hostMessages == old(hostMessages)
      ensures hostState == old(hostState) && storedState == old(storedState)
    {
      if inHost {
        hostMessages := hostMessages + [message];
      } else {
        consoleLog := consoleLog + [message];
      }
    }

    /** `getState`: the host's state, or the stored one; nothing when none was set. */
    method GetState() returns (r: Option<T>)
      ensures r == if inHost then hostState else storedState
    {
      r := if inHost then hostState else storedState;
    }

    /** `setState`: persists the state where `getState` reads it and hands it back. */
    method SetState(newState: T) returns (r: T)
      modifies this
      ensures r == newState
      ensures inHost ==> hostState == Some(newState) && storedState == old(storedState)
      ensures !inHost ==> storedState == Some(newState) && hostState == old(hostState)
      ensures hostMessages == old(hostMessages) && consoleLog == old(consoleLog)
    {
      if inHost {
        hostState := Some(newState);
      } else {
        storedState := Some(newState);
      }
      r := newState;
    }

    /** `toast.info`, `toast.success`, `toast.warning`, `toast.error`: one message with the text. */
    method Toast(kind: ToastKind, message: string)
      modifies this
      ensures inHost ==> hostMessages == old(hostMessages) + [Message(ToastCommand(kind), message)]
      ensures !inHost ==> consoleLog == old(consoleLog) + [Message(ToastCommand(kind), message)]
      ensures inHost ==> consoleLog == old(consoleLog)
      ensures !inHost ==> hostMessages == old(hostMessages)
      ensures hostState == old(hostState) && storedState == old(storedState)
    {
      PostMessage(Message(ToastCommand(kind), message));
    }

    /** `isInVSCode`: the API exists, or the page is framed by a `vscode-webview://` document. */
    predicate IsInVSCode(framed: bool, referrer: string) {
      inHost || (framed && Contains(referrer, "vscode-webview://"))
    }
  }

  /** A state read back after it was set is the state set. */
  method SetThenGet<T>(api: VSCodeAPIWrapper<T>, state: T) returns (r: Option<T>)
    modifies api
    ensures r == Some(state)
  {
    var _ := api.SetState(state);
    r := api.GetState();
  }

  // ---------------------------------------------------------------- getImageUri

  /** `s.replace(/\/+$/g, "")`: every trailing slash removed. */
  function DropTrailingSlashes(s: string): (r: string)
    ensures |r| <= |s| && r == s[..|r|] && (r == [] || r[|r| - 1] != '/')
    ensures forall i | |r| <= i < |s| :: s[i] == '/'
  {
    if s != [] && s[|s| - 1] == '/' then
      var r := DropTrailingSlashes(s[..|s| - 1]);
      assert s[..|s| - 1][..|r|] == s[..|r|];
      r
    else s
  }

  /** `s.replace(/^\/+/, "")`: every leading slash removed. */
  function DropLeadingSlashes(s: string): (r: string)
    ensures |r| <= |s| && r == s[|s| - |r|..] && (r == [] || r[0] != '/')
    ensures forall i | 0 <= i < |s| - |r| :: s[i] == '/'
  {
    if s != [] && s[0] == '/' then
      var r := DropLeadingSlashes(s[1..]);
      assert forall i | 1 <= i < |s| - |r| :: s[i] == s[1..][i - 1];
      r
    else s
  }

  /**
   * `getImageUri(src)`. Outside VS Code, `src` itself. Inside, with a non-blank `--asset-root` (the
   * raw custom property is a parameter), the root and `src` joined by one slash; without one, an
   * absolute `src` behind the legacy `vscode-resource:` scheme and a relative one as it is.
   */
  function GetImageUri(src: string, inVSCode: bool, assetRootProperty: string): (r: string)
  {
    if !inVSCode then src
    else
      var assetRoot := Trim(assetRootProperty);
      if assetRoot != [] then
        var cleaned := if StartsWith(src, "/") then src[1..] else src;
        DropTrailingSlashes(assetRoot) + "/" + DropLeadingSlashes(cleaned)
      else if StartsWith(src, "/") then "vscode-resource:" + src[1..]
      else src
  }

  /** Outside VS Code, and inside it for a relative `src` without an asset root, `src` is kept. */
  lemma ImageUriKept(src: string, inVSCode: bool, assetRootProperty: string)
    requires !inVSCode || (Trim(assetRootProperty) == [] && !StartsWith(src, "/"))
    ensures GetImageUri(src, inVSCode, assetRootProperty) == src
  {
  }

  /** Without an asset root an absolute `src` loses its first slash behind `vscode-resource:`. */
  lemma ImageUriLegacy(src: string, assetRootProperty: string)
    requires Trim(assetRootProperty) == [] && StartsWith(src, "/")
    ensures GetImageUri(src, true, assetRootProperty) == "vscode-resource:" + src[1..]
  {
  }

  /** Dropping the leading slashes after slicing off one of them drops the same ones. */
  lemma SlashSliced(src: string)
    requires src != [] && src[0] == '/'
    ensures DropLeadingSlashes(src[1..]) == DropLeadingSlashes(src)
  {
  }

  /**
   * With an asset root, the URI is the root without its trailing slashes, exactly one slash, and
   * `src` without any of its leading slashes (the first one `getImageUri` slices off is among them).
   */
  lemma ImageUriUnderRoot(src: string, assetRootProperty: string)
    requires Trim(assetRootProperty) != []
    ensures GetImageUri(src, true, assetRootProperty)
         == DropTrailingSlashes(Trim(assetRootProperty)) + "/" + DropLeadingSlashes(src)
  {
    var root := DropTrailingSlashes(Trim(assetRootProperty));
    if StartsWith(src, "/") {
      assert src[..1] == "/";
      SlashSliced(src);
      assert GetImageUri(src, true, assetRootProperty) == root + "/" + DropLeadingSlashes(src[1..]);
    } else {
      assert GetImageUri(src, true, assetRootProperty) == root + "/" + DropLeadingSlashes(src);
    }
  }
}
