/** The rich-text engine as the adapter sees it. What the engine does with
    a formatting command is its own business, so the document is kept as
    the term of the commands applied to it; the queries the adapter makes
    are uninterpreted functions supplied from outside. */
module TipTap {
  import opened Wrappers

  /** The commands the adapter issues. `SinkListItem` and `LiftListItem`
      carry the node type name they act on. */
  datatype Command =
    | Focus
    | Blur
    | SetContent(html: string)
    | ToggleBold
    | ToggleItalic
    | ToggleStrike
    | ToggleBulletList
    | SinkListItem(typeName: string)
    | LiftListItem(typeName: string)

  /** One invocation: a chain `chain().c1()...cn().run()`, or a single
      command through `commands.c()`. */
  datatype Call = Run(chain: seq<Command>) | Direct(command: Command)

  /** The document: loaded from HTML, or a document after the engine applied
      (or declined) a formatting command. */
  datatype Doc = Loaded(html: string) | Edited(base: Doc, command: Command)

  datatype Engine = Engine(doc: Doc, focused: bool)

  /** The engine right after construction: no content was given, so the
      document is empty, and nothing asked for focus. */
  const Created: Engine := Engine(Loaded(""), false)

  /** The engine's answers: the HTML of the document, whether a chain of
      commands could run (a dry run), and whether a mark or node is active
      at the selection. */
  datatype Queries = Queries(
    getHTML: Engine -> string,
    can: (Engine, seq<Command>) -> bool,
    isActive: (Engine, string) -> bool)

  function Apply(e: Engine, c: Command): Engine {
    match c
    case Focus => e.(focused := true)
    case Blur => e.(focused := false)
    case SetContent(h) => e.(doc := Loaded(h))
    case _ => e.(doc := Edited(e.doc, c))
  }

  function RunChain(e: Engine, chain: seq<Command>): Engine
    decreases |chain|
  {
    if chain == [] then e else RunChain(Apply(e, chain[0]), chain[1..])
  }

  function Step(e: Engine, call: Call): Engine {
    match call
    case Run(chain) => RunChain(e, chain)
    case Direct(c) => Apply(e, c)
  }

  /** The engine after a log of calls, oldest first. */
  function Replay(e: Engine, calls: seq<Call>): Engine
    decreases |calls|
  {
    if calls == [] then e else Replay(Step(e, calls[0]), calls[1..])
  }

  /** One more call at the end of the log is one more step of the engine. */
  lemma {:induction false} ReplaySnoc(e: Engine, calls: seq<Call>, c: Call)
    ensures Replay(e, calls + [c]) == Step(Replay(e, calls), c)
    decreases |calls|
  {
    if calls == [] {
      assert [] + [c] == [c];
    } else {
      assert (calls + [c])[1..] == calls[1..] + [c];
      ReplaySnoc(Step(e, calls[0]), calls[1..], c);
    }
  }

  /** The html of the last `setContent` in a log of calls, if any. */
  function LastSet(calls: seq<Call>): Option<string>
    decreases |calls|
  {
    if calls == [] then None
    else match calls[|calls| - 1]
      case Direct(SetContent(h)) => Some(h)
      case _ => LastSet(calls[..|calls| - 1])
  }
}
