/** The host component (src/components/RichTextEditor.tsx): the desired
    content, the one retained snapshot, the toolbar drawn from it, and the
    messages the component posts to the embedded editor, kept in `outbox`
    in the order they were posted. */
module HostController {
  import opened Wrappers
  import opened Protocol

  /** The retained snapshot before any report: empty HTML, every flag off. */
  const InitialState: EditorState :=
    EditorState("", false, false, false, false, false, false, false, false, false)

  /** The five toolbar buttons (there is none for strike). */
  datatype Button = BoldButton | ItalicButton | ToggleListButton | SinkButton | LiftButton

  /** The fixed action each button sends. */
  function Payload(b: Button): (a: EditorAction)
    ensures a != ToggleStrike
  {
    match b
    case BoldButton => ToggleBold
    case ItalicButton => ToggleItalic
    case ToggleListButton => ToggleListItem
    case SinkButton => SinkListItem
    case LiftButton => LiftListItem
  }

  /** Different buttons send different actions, and every action but
      strike has a button. */
  lemma PayloadBijective(b: Button, c: Button, a: EditorAction)
    ensures Payload(b) == Payload(c) <==> b == c
    ensures a != ToggleStrike ==> exists d :: Payload(d) == a
  {
    if a != ToggleStrike {
      var d := match a
        case ToggleBold => BoldButton
        case ToggleItalic => ItalicButton
        case ToggleListItem => ToggleListButton
        case SinkListItem => SinkButton
        case LiftListItem => LiftButton;
      assert Payload(d) == a;
    }
  }

  /** Whether a button is drawn with the active style. */
  function Active(b: Button, s: EditorState): bool {
    match b
    case BoldButton => s.isBoldActive
    case ItalicButton => s.isItalicActive
    case ToggleListButton => s.isBulletListActive
    case SinkButton => false
    case LiftButton => false
  }

  /** Whether a button is drawn with the disabled style. */
  function Disabled(b: Button, s: EditorState): bool {
    match b
    case BoldButton => false
    case ItalicButton => false
    case ToggleListButton => false
    case SinkButton => !s.canSinkListItem
    case LiftButton => !s.canLiftListItem
  }

  /** Each button is drawn from the flag of the action it sends: a toggle
      (bold, italic, bullet list) only shows whether its formatting is
      active, a list move (sink, lift) only whether it can run. */
  lemma ToolbarRendering(b: Button, s: EditorState)
    ensures Active(b, s) == match Payload(b)
      case ToggleBold => s.isBoldActive
      case ToggleItalic => s.isItalicActive
      case ToggleStrike => s.isStrikeActive
      case ToggleListItem => s.isBulletListActive
      case SinkListItem => false
      case LiftListItem => false
    ensures Disabled(b, s) == match Payload(b)
      case SinkListItem => !s.canSinkListItem
      case LiftListItem => !s.canLiftListItem
      case _ => false
  {
  }

  /** The retained snapshot after one report. */
  function ApplyReport(s: EditorState, m: WebViewMessage): EditorState {
    match m
    case EditorStateUpdate(n) => n
    case EditorInitialised => s
  }

  /** One more report at the end is one more application of the handler.
      `Host.OnReport` ensures `state == ApplyReport(old(state), m)`, so by
      this lemma a run of `OnReport(m1) ... OnReport(mn)` leaves
      `state == Retained(s0, [m1, ..., mn])`, and `LastWriteWins` then says
      what that state is. */
  lemma {:induction false} RetainedSnoc(s: EditorState, ms: seq<WebViewMessage>, m: WebViewMessage)
    ensures Retained(s, ms + [m]) == ApplyReport(Retained(s, ms), m)
    decreases |ms|
  {
    if ms == [] {
      assert [] + [m] == [m];
    } else {
      assert (ms + [m])[1..] == ms[1..] + [m];
      RetainedSnoc(ApplyReport(s, ms[0]), ms[1..], m);
    }
  }

  /** The messages posted in answer to one report. */
  function Reply(content: string, m: WebViewMessage): seq<NativeMessage> {
    match m
    case EditorStateUpdate(_) => []
    case EditorInitialised => [InitialContent(content)]
  }

  /** The retained snapshot after a sequence of reports, oldest first. */
  function Retained(s: EditorState, ms: seq<WebViewMessage>): EditorState
    decreases |ms|
  {
    if ms == [] then s else Retained(ApplyReport(s, ms[0]), ms[1..])
  }

  /** The payload of the last state update in a sequence of reports. */
  function LastUpdate(ms: seq<WebViewMessage>): Option<EditorState>
    decreases |ms|
  {
    if ms == [] then None
    else match ms[|ms| - 1]
      case EditorStateUpdate(n) => Some(n)
      case EditorInitialised => LastUpdate(ms[..|ms| - 1])
  }

  /** Last write wins: after any sequence of reports the retained snapshot
      is the last update's payload, untouched, or the earlier snapshot when
      no update came. */
  lemma {:induction false} LastWriteWins(s: EditorState, ms: seq<WebViewMessage>)
    ensures Retained(s, ms) == LastUpdate(ms).GetOr(s)
    decreases |ms|
  {
    if ms != [] {
      LastWriteWins(ApplyReport(s, ms[0]), ms[1..]);
      LastWriteWinsStep(s, ms);
    }
  }

  /** The last update of a sequence with one more report at its end. */
  lemma LastUpdateCons(ms: seq<WebViewMessage>, m: WebViewMessage)
    ensures LastUpdate(ms + [m]) == if m.EditorStateUpdate? then Some(m.state) else LastUpdate(ms)
  {
  }

  /** Dropping the first report changes the last update only if it was the
      only update. */
  lemma {:induction false} LastWriteWinsStep(s: EditorState, ms: seq<WebViewMessage>)
    requires ms != []
    ensures LastUpdate(ms[1..]).GetOr(ApplyReport(s, ms[0])) == LastUpdate(ms).GetOr(s)
    decreases |ms|
  {
    if |ms| == 1 {
      assert ms[1..] == [] && ms[..0] == [];
    } else {
      var init := ms[..|ms| - 1];
      var last := ms[|ms| - 1];
      assert ms == init + [last];
      assert ms[1..] == init[1..] + [last];
      LastUpdateCons(init[1..], last);
      LastUpdateCons(init, last);
      if !last.EditorStateUpdate? {
        assert init[1..] == ms[1..|ms| - 1];
        LastWriteWinsStep(s, init);
      }
    }
  }

  /** The messages posted in answer to a sequence of reports. */
  function Replies(content: string, ms: seq<WebViewMessage>): seq<NativeMessage>
    decreases |ms|
  {
    if ms == [] then [] else Reply(content, ms[0]) + Replies(content, ms[1..])
  }

  /** One more report at the end adds exactly its own reply, so a run of
      `Host.OnReport` calls posts `Replies` of the reports it handled. */
  lemma {:induction false} RepliesSnoc(content: string, ms: seq<WebViewMessage>, m: WebViewMessage)
    ensures Replies(content, ms + [m]) == Replies(content, ms) + Reply(content, m)
    decreases |ms|
  {
    if ms == [] {
      assert [] + [m] == [m];
      assert [m][1..] == [];
    } else {
      assert (ms + [m])[1..] == ms[1..] + [m];
      RepliesSnoc(content, ms[1..], m);
    }
  }

  function CountInitialised(ms: seq<WebViewMessage>): nat
    decreases |ms|
  {
    if ms == [] then 0 else (if ms[0].EditorInitialised? then 1 else 0) + CountInitialised(ms[1..])
  }

  /** Over any sequence of reports the host posts one re-send of the
      current content per initialisation report, and nothing else. */
  lemma {:induction false} RepliesAreResends(content: string, ms: seq<WebViewMessage>)
    ensures |Replies(content, ms)| == CountInitialised(ms)
    ensures forall i | 0 <= i < |Replies(content, ms)| :: Replies(content, ms)[i] == InitialContent(content)
    decreases |ms|
  {
    if ms != [] {
      RepliesAreResends(content, ms[1..]);
    }
  }

  /** What the host may post: it never sends `blur` and, having no
      button for it, never `toggleStrike`. */
  predicate Sendable(m: NativeMessage) {
    m != Editor(Blur) && m != Action(ToggleStrike)
  }

  class Host {
    var content: string
    var state: EditorState
    var outbox: seq<NativeMessage>

    ghost predicate Valid()
      reads this
    {
      forall i | 0 <= i < |outbox| :: Sendable(outbox[i])
    }

    /** Mounting: a missing `content` is the empty string, and the content
        effect posts it once. */
    constructor (prop: Option<string>)
      ensures Valid()
      ensures content == prop.GetOr("")
      ensures state == InitialState
      ensures outbox == [InitialContent(content)]
    {
      content := prop.GetOr("");
      state := InitialState;
      outbox := [InitialContent(prop.GetOr(""))];
    }

    /** A new `content` input. The effect depends on `content` alone, so it
        posts exactly when the value differs from the last one. */
    method SetContent(prop: Option<string>)
      requires Valid()
      modifies this`content, this`outbox
      ensures Valid()
      ensures content == prop.GetOr("")
      ensures outbox == if content == old(content) then old(outbox)
                        else old(outbox) + [InitialContent(content)]
    {
      var c := prop.GetOr("");
      if c != content {
        content := c;
        outbox := outbox + [InitialContent(c)];
      }
    }

    /** A toolbar press posts the button's action whatever the flags say. */
    method Press(b: Button)
      requires Valid()
      modifies this`outbox
      ensures Valid()
      ensures outbox == old(outbox) + [Action(Payload(b))]
    {
      outbox := outbox + [Action(Payload(b))];
    }

    /** A tap on the editor surface asks for focus. */
    method TapSurface()
      requires Valid()
      modifies this`outbox
      ensures Valid()
      ensures outbox == old(outbox) + [Editor(Focus)]
    {
      outbox := outbox + [Editor(Focus)];
    }

    /** The report handler: an update replaces the snapshot wholesale and
        posts nothing; an initialisation re-sends the current content and
        keeps the snapshot. */
    method OnReport(m: WebViewMessage)
      requires Valid()
      modifies this`state, this`outbox
      ensures Valid()
      ensures state == ApplyReport(old(state), m)
      ensures outbox == old(outbox) + Reply(content, m)
      ensures m.EditorStateUpdate? ==> state == m.state && outbox == old(outbox)
      ensures m.EditorInitialised? ==> state == old(state) && outbox == old(outbox) + [InitialContent(content)]
    {
      if m.EditorStateUpdate? {
        state := m.state;
      }
      if m.EditorInitialised? {
        outbox := outbox + [InitialContent(content)];
      }
    }
  }
}
