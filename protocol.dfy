/** The message contract shared by the host and the embedded editor
    (src/editor/main.ts): the state snapshot, the six editor actions, the
    two message unions, and the parsed form in which a host message reaches
    the editor's listener. */
module Protocol {
  import opened Wrappers

  /** A snapshot of the editor: its HTML and the capability and
      active-formatting flags the toolbar is drawn from. */
  datatype EditorState = EditorState(
    html: string,
    canBold: bool,
    canItalic: bool,
    canStrike: bool,
    canSinkListItem: bool,
    canLiftListItem: bool,
    isBulletListActive: bool,
    isBoldActive: bool,
    isItalicActive: bool,
    isStrikeActive: bool)

  /** The formatting operations the host may ask the editor to run. */
  datatype EditorAction =
    | ToggleBold
    | ToggleItalic
    | ToggleStrike
    | ToggleListItem
    | SinkListItem
    | LiftListItem

  /** The payload of an `editor` message. */
  datatype FocusMode = Focus | Blur

  /** Host to editor. */
  datatype NativeMessage =
    | Action(action: EditorAction)
    | Editor(mode: FocusMode)
    | InitialContent(html: string)

  /** Editor to host. */
  datatype WebViewMessage =
    | EditorStateUpdate(state: EditorState)
    | EditorInitialised

  /** A host message as the editor's listener sees it once the text has been
      parsed: every host message is a `kind` tag and a string `payload`, and
      nothing forces either to be one the types allow. */
  datatype NativeWire = NativeWire(kind: string, payload: string)

  const ActionKind: string := "action"
  const EditorKind: string := "editor"
  const InitialContentKind: string := "initialContent"

  /** The wire name of each action (the keys of the editor's action table). */
  function ActionName(a: EditorAction): (name: string)
    ensures ActionNamed(name) == Some(a)
  {
    match a
    case ToggleBold => "toggleBold"
    case ToggleItalic => "toggleItalic"
    case ToggleStrike => "toggleStrike"
    case ToggleListItem => "toggleListItem"
    case SinkListItem => "sinkListItem"
    case LiftListItem => "liftListItem"
  }

  /** Looking a payload up among the action names; `None` for any other string. */
  function ActionNamed(name: string): Option<EditorAction> {
    if name == "toggleBold" then Some(ToggleBold)
    else if name == "toggleItalic" then Some(ToggleItalic)
    else if name == "toggleStrike" then Some(ToggleStrike)
    else if name == "toggleListItem" then Some(ToggleListItem)
    else if name == "sinkListItem" then Some(SinkListItem)
    else if name == "liftListItem" then Some(LiftListItem)
    else None
  }

  /** The names and the lookup are inverse to each other. */
  lemma ActionNamedIff(name: string, a: EditorAction)
    ensures ActionNamed(name) == Some(a) <==> ActionName(a) == name
  {
  }

  function FocusModeName(f: FocusMode): string {
    match f
    case Focus => "focus"
    case Blur => "blur"
  }

  /** How a typed host message is written on the wire. */
  function ToWire(m: NativeMessage): (w: NativeWire)
    ensures FromWire(w) == Some(m)
  {
    match m
    case Action(a) => NativeWire(ActionKind, ActionName(a))
    case Editor(f) => NativeWire(EditorKind, FocusModeName(f))
    case InitialContent(h) => NativeWire(InitialContentKind, h)
  }

  /** The typed message a parsed record stands for, if it is one the types
      allow: a known kind with a payload that kind admits. */
  function FromWire(w: NativeWire): Option<NativeMessage> {
    if w.kind == ActionKind then
      match ActionNamed(w.payload)
      case Some(a) => Some(Action(a))
      case None => None
    else if w.kind == EditorKind then
      if w.payload == "focus" then Some(Editor(Focus))
      else if w.payload == "blur" then Some(Editor(Blur))
      else None
    else if w.kind == InitialContentKind then Some(InitialContent(w.payload))
    else None
  }

  /** A well-typed record has exactly one typed reading, and it is the one
      that writes back to that record. */
  lemma FromWireIff(w: NativeWire, m: NativeMessage)
    ensures FromWire(w) == Some(m) <==> ToWire(m) == w
  {
  }
}
