/** The embedded editor (src/editor/main.ts): the snapshot it derives from
    the engine, its table from actions to engine chains, its message
    listener and its three engine hooks. The global editor instance becomes
    the `engine` field of an `Adapter`, and the calls made on it are kept in
    a log; posting to the host appends to `outbox`. */
module EditorAdapter {
  import opened Wrappers
  import opened Protocol
  import TipTap

  /** The node type name the list commands are given. */
  const ListItem: string := "listItem"

  /** The snapshot of the engine: one query per field, the `can` flags by
      dry runs and the `is` flags by asking what is active. */
  function DeriveState(q: TipTap.Queries, e: TipTap.Engine): EditorState {
    EditorState(
      html := q.getHTML(e),
      canBold := q.can(e, [TipTap.Focus, TipTap.ToggleBold]),
      canItalic := q.can(e, [TipTap.Focus, TipTap.ToggleItalic]),
      canStrike := q.can(e, [TipTap.Focus, TipTap.ToggleStrike]),
      canSinkListItem := q.can(e, [TipTap.SinkListItem(ListItem)]),
      canLiftListItem := q.can(e, [TipTap.LiftListItem(ListItem)]),
      isBulletListActive := q.isActive(e, "bulletList"),
      isBoldActive := q.isActive(e, "bold"),
      isItalicActive := q.isActive(e, "italic"),
      isStrikeActive := q.isActive(e, "strike"))
  }

  /** The snapshot is recomputed from the ten queries and from nothing
      else: engines (and query answers) that agree on those ten give the
      same snapshot, whatever else differs between them. */
  lemma SnapshotDeterminedByQueries(q: TipTap.Queries, e: TipTap.Engine, q': TipTap.Queries, e': TipTap.Engine)
    requires q.getHTML(e) == q'.getHTML(e')
    requires forall a | a in {ToggleBold, ToggleItalic, ToggleStrike} ::
      q.can(e, ActionChain(a)) == q'.can(e', ActionChain(a))
    requires forall a | a in {SinkListItem, LiftListItem} ::
      q.can(e, ActionChain(a)[1..]) == q'.can(e', ActionChain(a)[1..])
    requires forall name | name in {"bulletList", "bold", "italic", "strike"} ::
      q.isActive(e, name) == q'.isActive(e', name)
    ensures DeriveState(q, e) == DeriveState(q', e')
  {
    assert q.can(e, ActionChain(SinkListItem)[1..]) == q'.can(e', ActionChain(SinkListItem)[1..]);
    assert q.can(e, ActionChain(LiftListItem)[1..]) == q'.can(e', ActionChain(LiftListItem)[1..]);
    assert q.can(e, ActionChain(ToggleBold)) == q'.can(e', ActionChain(ToggleBold));
    assert q.can(e, ActionChain(ToggleItalic)) == q'.can(e', ActionChain(ToggleItalic));
    assert q.can(e, ActionChain(ToggleStrike)) == q'.can(e', ActionChain(ToggleStrike));
  }

  /** The HTML comes from `getHTML` and each `is` flag from `isActive` on
      the name of its own mark or node. */
  lemma SnapshotReadsItsQueries(q: TipTap.Queries, e: TipTap.Engine)
    ensures DeriveState(q, e).html == q.getHTML(e)
    ensures DeriveState(q, e).isBulletListActive == q.isActive(e, "bulletList")
    ensures DeriveState(q, e).isBoldActive == q.isActive(e, "bold")
    ensures DeriveState(q, e).isItalicActive == q.isActive(e, "italic")
    ensures DeriveState(q, e).isStrikeActive == q.isActive(e, "strike")
  {
  }

  /** The action table: every action focuses the editor and then runs its
      one formatting command. */
  function ActionChain(a: EditorAction): (chain: seq<TipTap.Command>)
    ensures |chain| == 2 && chain[0] == TipTap.Focus
  {
    match a
    case LiftListItem => [TipTap.Focus, TipTap.LiftListItem(ListItem)]
    case SinkListItem => [TipTap.Focus, TipTap.SinkListItem(ListItem)]
    case ToggleListItem => [TipTap.Focus, TipTap.ToggleBulletList]
    case ToggleBold => [TipTap.Focus, TipTap.ToggleBold]
    case ToggleItalic => [TipTap.Focus, TipTap.ToggleItalic]
    case ToggleStrike => [TipTap.Focus, TipTap.ToggleStrike]
  }

  /** No two actions run the same chain. */
  lemma ActionChainInjective(a: EditorAction, b: EditorAction)
    ensures ActionChain(a) == ActionChain(b) <==> a == b
  {
  }

  /** Each `can` flag is the dry run of what the matching action runs: the
      very chain for bold, italic and strike; for sink and lift, the command
      alone, without the focus step the action adds in front. */
  lemma CanFlagsAreDryRunsOfActions(q: TipTap.Queries, e: TipTap.Engine)
    ensures DeriveState(q, e).canBold == q.can(e, ActionChain(ToggleBold))
    ensures DeriveState(q, e).canItalic == q.can(e, ActionChain(ToggleItalic))
    ensures DeriveState(q, e).canStrike == q.can(e, ActionChain(ToggleStrike))
    ensures DeriveState(q, e).canSinkListItem == q.can(e, ActionChain(SinkListItem)[1..])
    ensures DeriveState(q, e).canLiftListItem == q.can(e, ActionChain(LiftListItem)[1..])
  {
  }

  /** The one engine call a well-typed host message leads to. */
  function Effect(m: NativeMessage): TipTap.Call {
    match m
    case Action(a) => TipTap.Run(ActionChain(a))
    case InitialContent(h) => TipTap.Direct(TipTap.SetContent(h))
    case Editor(Focus) => TipTap.Direct(TipTap.Focus)
    case Editor(Blur) => TipTap.Direct(TipTap.Blur)
  }

  /** What the listener does with a parsed message: the engine calls it
      makes, or the exception it raises. */
  datatype Reaction = Invoked(calls: seq<TipTap.Call>) | Threw

  /** The listener's dispatch on `kind`. An action payload missing from the
      table makes the looked-up function undefined and calling it throws;
      an `editor` payload other than `focus` or `blur`, and any other kind,
      are ignored. */
  function Listen(w: NativeWire): (r: Reaction)
    ensures r.Threw? <==> w.kind == ActionKind && ActionNamed(w.payload).None?
    ensures FromWire(w).Some? ==> r == Invoked([Effect(FromWire(w).value)])
    ensures FromWire(w).None? && r.Invoked? ==> r.calls == []
  {
    if w.kind == ActionKind then
      match ActionNamed(w.payload)
      case Some(a) => Invoked([TipTap.Run(ActionChain(a))])
      case None => Threw
    else if w.kind == InitialContentKind then
      Invoked([TipTap.Direct(TipTap.SetContent(w.payload))])
    else if w.kind == EditorKind then
      if w.payload == "focus" then Invoked([TipTap.Direct(TipTap.Focus)])
      else if w.payload == "blur" then Invoked([TipTap.Direct(TipTap.Blur)])
      else Invoked([])
    else Invoked([])
  }

  /** Every host message the host can write is dispatched to exactly its
      own engine call, and never throws. */
  lemma ListenTyped(m: NativeMessage)
    ensures Listen(ToWire(m)) == Invoked([Effect(m)])
  {
  }

  class Adapter {
    const queries: TipTap.Queries
    var engine: TipTap.Engine
    var calls: seq<TipTap.Call>
    var outbox: seq<WebViewMessage>

    /** The engine is what its log of calls made of the fresh engine. */
    ghost predicate Valid()
      reads this
    {
      engine == TipTap.Replay(TipTap.Created, calls)
    }

    /** Constructing the engine and registering the listener. */
    constructor (q: TipTap.Queries)
      ensures Valid()
      ensures queries == q && engine == TipTap.Created && calls == [] && outbox == []
    {
      queries := q;
      engine := TipTap.Created;
      calls := [];
      outbox := [];
    }

    /** The `onCreate` hook. */
    method OnCreate()
      modifies this`outbox
      ensures outbox == old(outbox) + [EditorInitialised]
    {
      outbox := outbox + [EditorInitialised];
    }

    /** The `onSelectionUpdate` hook: a fresh snapshot of the engine. */
    method OnSelectionUpdate()
      modifies this`outbox
      ensures outbox == old(outbox) + [EditorStateUpdate(DeriveState(queries, engine))]
    {
      outbox := outbox + [EditorStateUpdate(DeriveState(queries, engine))];
    }

    /** The `onUpdate` hook: a fresh snapshot of the engine. */
    method OnUpdate()
      modifies this`outbox
      ensures outbox == old(outbox) + [EditorStateUpdate(DeriveState(queries, engine))]
    {
      outbox := outbox + [EditorStateUpdate(DeriveState(queries, engine))];
    }

    /** One call on the engine, recorded in the log. */
    method Perform(c: TipTap.Call)
      requires Valid()
      modifies this`engine, this`calls
      ensures Valid()
      ensures calls == old(calls) + [c] && engine == TipTap.Step(old(engine), c)
    {
      TipTap.ReplaySnoc(TipTap.Created, calls, c);
      engine := TipTap.Step(engine, c);
      calls := calls + [c];
    }

    /** The `message` listener. `threw` reports the exception an unknown
        action payload raises; nothing is posted back either way. */
    method OnMessage(w: NativeWire) returns (threw: bool)
      requires Valid()
      modifies this`engine, this`calls
      ensures Valid()
      ensures threw <==> Listen(w).Threw?
      ensures threw ==> calls == old(calls) && engine == old(engine)
      ensures !threw ==> calls == old(calls) + Listen(w).calls
      ensures !threw ==> engine == TipTap.Replay(old(engine), Listen(w).calls)
    {
      threw := false;
      if w.kind == ActionKind {
        var fn := ActionNamed(w.payload);
        if fn.None? {
          threw := true;
          return;
        }
        Perform(TipTap.Run(ActionChain(fn.value)));
      }
      if w.kind == InitialContentKind {
        Perform(TipTap.Direct(TipTap.SetContent(w.payload)));
      }
      if w.kind == EditorKind {
        if w.payload == "focus" {
          Perform(TipTap.Direct(TipTap.Focus));
        }
        if w.payload == "blur" {
          Perform(TipTap.Direct(TipTap.Blur));
        }
      }
    }
  }
}
