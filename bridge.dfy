/** The two sides joined by the transport: each direction is a FIFO queue
    that delivers whole messages once, in the order they were posted, one
    step at a time. The queue towards the editor is the part of the host's
    outbox not yet delivered, and likewise towards the host. Messages that
    reach the embedded document before its script has run are lost, which
    is the race the host's re-send on `editorInitialised` repairs. */
module Bridge {
  import opened Wrappers
  import opened Protocol
  import TipTap
  import EditorAdapter
  import HostController

  /** The content a host message carries, if it carries one. */
  function ContentOf(m: NativeMessage): Option<string> {
    if m.InitialContent? then Some(m.html) else None
  }

  /** The content of the last `initialContent` in a sequence of messages. */
  function LastContent(ms: seq<NativeMessage>): Option<string>
    decreases |ms|
  {
    if ms == [] then None
    else if ContentOf(ms[|ms| - 1]).Some? then ContentOf(ms[|ms| - 1])
    else LastContent(ms[..|ms| - 1])
  }

  /** Taking the first message off a queue: the last content of the whole
      queue is that of the rest, or else the first message's own. */
  lemma {:induction false} LastContentCons(m: NativeMessage, ms: seq<NativeMessage>)
    ensures LastContent([m] + ms) == if LastContent(ms).Some? then LastContent(ms) else ContentOf(m)
    decreases |ms|
  {
    if ms == [] {
      assert [m] + ms == [m];
      assert [m][..0] == [];
    } else {
      assert ([m] + ms)[..|ms|] == [m] + ms[..|ms| - 1];
      LastContentCons(m, ms[..|ms| - 1]);
    }
  }

  /** The engine calls a sequence of host messages leads to, in order. */
  function Effects(ms: seq<NativeMessage>): (calls: seq<TipTap.Call>)
    ensures |calls| == |ms|
    ensures forall i | 0 <= i < |ms| :: calls[i] == EditorAdapter.Effect(ms[i])
    decreases |ms|
  {
    if ms == [] then [] else Effects(ms[..|ms| - 1]) + [EditorAdapter.Effect(ms[|ms| - 1])]
  }

  /** Delivering a host message to the engine: the last content set is the
      message's own if it carries one, and is unchanged otherwise. */
  lemma LastSetAfterEffect(calls: seq<TipTap.Call>, m: NativeMessage)
    ensures TipTap.LastSet(calls + [EditorAdapter.Effect(m)])
         == if m.InitialContent? then Some(m.html) else TipTap.LastSet(calls)
  {
  }

  /** Once a snapshot of the engine has reached the host, each button is
      drawn from exactly one engine query. */
  lemma ToolbarShowsEngine(q: TipTap.Queries, e: TipTap.Engine)
    ensures var s := EditorAdapter.DeriveState(q, e);
      && HostController.Active(HostController.BoldButton, s) == q.isActive(e, "bold")
      && HostController.Active(HostController.ItalicButton, s) == q.isActive(e, "italic")
      && HostController.Active(HostController.ToggleListButton, s) == q.isActive(e, "bulletList")
      && HostController.Disabled(HostController.SinkButton, s)
         == !q.can(e, [TipTap.SinkListItem(EditorAdapter.ListItem)])
      && HostController.Disabled(HostController.LiftButton, s)
         == !q.can(e, [TipTap.LiftListItem(EditorAdapter.ListItem)])
  {
  }

  class System {
    const host: HostController.Host
    const queries: TipTap.Queries
    /** The embedded editor, once its document script has run. */
    var adapter: EditorAdapter.Adapter?
    /** How many host messages the transport has delivered (or lost). */
    var toEditor: nat
    /** How many editor messages the transport has delivered. */
    var toHost: nat
    /** Whether the engine has fired `onCreate`, and the length of the call
        log at that moment. */
    var created: bool
    ghost var createdAt: nat
    /** Whether the host has received `editorInitialised`. */
    var initialisedSeen: bool

    /** Race recovery: once the host has seen the initialisation report, the
        newest content still in flight towards the editor, or else the last
        content the engine was given since it was created, is the host's
        current content. */
    ghost predicate Recovered()
      reads this, host, adapter
      requires adapter != null && toEditor <= |host.outbox| && createdAt <= |adapter.calls|
    {
      match LastContent(host.outbox[toEditor..])
      case Some(c) => c == host.content
      case None => TipTap.LastSet(adapter.calls[createdAt..]) == Some(host.content)
    }

    ghost predicate Valid()
      reads this, host, adapter
    {
      host.Valid() && toEditor <= |host.outbox| &&
      (adapter == null ==> !created && !initialisedSeen && toHost == 0) &&
      (adapter != null ==>
        adapter.Valid() && adapter.queries == queries && toHost <= |adapter.outbox| &&
        (created ==> createdAt <= |adapter.calls|) &&
        (!created ==> EditorInitialised !in adapter.outbox)) &&
      (initialisedSeen ==> created) &&
      (initialisedSeen ==> adapter != null && Recovered())
    }

    /** Mounting the host; the embedded document is still loading. */
    constructor (prop: Option<string>, q: TipTap.Queries)
      ensures Valid() && fresh(host)
      ensures adapter == null && queries == q && toEditor == 0 && toHost == 0
      ensures !created && !initialisedSeen
      ensures host.content == prop.GetOr("") && host.outbox == [InitialContent(host.content)]
      ensures host.state == HostController.InitialState
    {
      host := new HostController.Host(prop);
      queries := q;
      adapter := null;
      toEditor, toHost := 0, 0;
      created, initialisedSeen := false, false;
      createdAt := 0;
    }

    method ChangeContent(prop: Option<string>)
      requires Valid()
      modifies host
      ensures Valid()
      ensures host.content == prop.GetOr("") && host.state == old(host.state)
      ensures host.outbox == if host.content == old(host.content) then old(host.outbox)
                             else old(host.outbox) + [InitialContent(host.content)]
    {
      host.SetContent(prop);
      assert host.outbox[toEditor..] == old(host.outbox[toEditor..]) + (host.outbox[|old(host.outbox)|..]);
      if initialisedSeen && host.content != old(host.content) {
        assert host.outbox[toEditor..] == old(host.outbox[toEditor..]) + [InitialContent(host.content)];
      }
    }

    method PressButton(b: HostController.Button)
      requires Valid()
      modifies host
      ensures Valid()
      ensures host.outbox == old(host.outbox) + [Action(HostController.Payload(b))]
      ensures host.state == old(host.state) && host.content == old(host.content)
    {
      host.Press(b);
      assert host.outbox[toEditor..] == old(host.outbox[toEditor..]) + [Action(HostController.Payload(b))];
    }

    method TapSurface()
      requires Valid()
      modifies host
      ensures Valid()
      ensures host.outbox == old(host.outbox) + [Editor(Focus)]
      ensures host.state == old(host.state) && host.content == old(host.content)
    {
      host.TapSurface();
      assert host.outbox[toEditor..] == old(host.outbox[toEditor..]) + [Editor(Focus)];
    }

    /** The embedded document's script runs: the engine is built and the
        listener registered. */
    method LoadPage()
      requires Valid() && adapter == null
      modifies this
      ensures Valid() && adapter != null && fresh(adapter)
      ensures adapter.engine == TipTap.Created && adapter.calls == [] && adapter.outbox == []
      ensures toEditor == old(toEditor) && !created && !initialisedSeen
    {
      adapter := new EditorAdapter.Adapter(queries);
    }

    /** The engine fires `onCreate`, once, after the page has loaded. */
    method EngineCreated()
      requires Valid() && adapter != null && !created
      modifies this, adapter
      ensures Valid() && created && adapter == old(adapter)
      ensures adapter.outbox == old(adapter.outbox) + [EditorInitialised]
      ensures adapter.calls == old(adapter.calls) && createdAt == |adapter.calls|
      ensures toEditor == old(toEditor) && toHost == old(toHost) && initialisedSeen == old(initialisedSeen)
    {
      adapter.OnCreate();
      created := true;
      createdAt := |adapter.calls|;
    }

    /** The engine fires `onSelectionUpdate` or `onUpdate`; both post the
        same fresh snapshot. */
    method EngineChanged(selectionOnly: bool)
      requires Valid() && adapter != null
      modifies adapter`outbox
      ensures Valid()
      ensures adapter.engine == old(adapter.engine) && adapter.calls == old(adapter.calls)
      ensures adapter.outbox == old(adapter.outbox) + [EditorStateUpdate(EditorAdapter.DeriveState(queries, old(adapter.engine)))]
    {
      if selectionOnly {
        adapter.OnSelectionUpdate();
      } else {
        adapter.OnUpdate();
      }
    }

    /** The transport delivers the oldest undelivered host message; before
        the page has loaded nothing is listening and it is lost. */
    method DeliverToEditor()
      requires Valid() && toEditor < |host.outbox|
      modifies this, adapter
      ensures Valid()
      ensures toEditor == old(toEditor) + 1 && adapter == old(adapter)
      ensures toHost == old(toHost) && created == old(created) && createdAt == old(createdAt)
      ensures initialisedSeen == old(initialisedSeen)
      ensures old(adapter) != null ==>
        adapter.calls == old(adapter.calls) + [EditorAdapter.Effect(host.outbox[old(toEditor)])]
      ensures old(adapter) != null ==> adapter.outbox == old(adapter.outbox)
    {
      var m := host.outbox[toEditor];
      assert host.outbox[toEditor..] == [m] + host.outbox[toEditor + 1..];
      LastContentCons(m, host.outbox[toEditor + 1..]);
      toEditor := toEditor + 1;
      if adapter != null {
        EditorAdapter.ListenTyped(m);
        var threw := adapter.OnMessage(ToWire(m));
        if created {
          assert adapter.calls[createdAt..] == old(adapter.calls)[createdAt..] + [EditorAdapter.Effect(m)];
          LastSetAfterEffect(old(adapter.calls)[createdAt..], m);
        }
      }
    }

    /** The transport delivers the oldest undelivered editor message. */
    method DeliverToHost()
      requires Valid() && adapter != null && toHost < |adapter.outbox|
      modifies this, host
      ensures Valid()
      ensures toHost == old(toHost) + 1 && toEditor == old(toEditor)
      ensures adapter == old(adapter) && created == old(created) && createdAt == old(createdAt)
      ensures host.content == old(host.content)
      ensures old(adapter.outbox[toHost]) == EditorInitialised ==>
        initialisedSeen && host.state == old(host.state) &&
        host.outbox == old(host.outbox) + [InitialContent(host.content)]
      ensures old(adapter.outbox[toHost]).EditorStateUpdate? ==>
        initialisedSeen == old(initialisedSeen) &&
        host.state == old(adapter.outbox[toHost]).state && host.outbox == old(host.outbox)
    {
      var m := adapter.outbox[toHost];
      toHost := toHost + 1;
      host.OnReport(m);
      if m == EditorInitialised {
        assert m in adapter.outbox;
        initialisedSeen := true;
        assert host.outbox[toEditor..] == old(host.outbox[toEditor..]) + [InitialContent(host.content)];
      }
    }

    /** Delivering everything in flight towards the editor. Once the host
        has seen the initialisation report, the last content the engine has
        been given since its creation is the host's current content. */
    method FlushToEditor()
      requires Valid()
      modifies this, adapter
      ensures Valid()
      ensures toEditor == |host.outbox| && adapter == old(adapter)
      ensures initialisedSeen == old(initialisedSeen) && createdAt == old(createdAt)
      ensures toHost == old(toHost) && created == old(created)
      ensures old(adapter) != null ==> adapter.outbox == old(adapter.outbox)
      ensures old(adapter) != null ==>
        adapter.calls == old(adapter.calls) + Effects(host.outbox[old(toEditor)..])
      ensures initialisedSeen ==> TipTap.LastSet(adapter.calls[createdAt..]) == Some(host.content)
    {
      while toEditor < |host.outbox|
        invariant Valid()
        invariant adapter == old(adapter)
        invariant initialisedSeen == old(initialisedSeen) && createdAt == old(createdAt)
        invariant toHost == old(toHost) && created == old(created)
        invariant old(adapter) != null ==> adapter.outbox == old(adapter.outbox)
        invariant old(toEditor) <= toEditor
        invariant old(adapter) != null ==>
          adapter.calls == old(adapter.calls) + Effects(host.outbox[old(toEditor)..toEditor])
        decreases |host.outbox| - toEditor
      {
        ghost var done := host.outbox[old(toEditor)..toEditor];
        DeliverToEditor();
        assert host.outbox[old(toEditor)..toEditor] == done + [host.outbox[toEditor - 1]];
      }
      assert host.outbox[old(toEditor)..toEditor] == host.outbox[old(toEditor)..];
      assert host.outbox[toEditor..] == [];
    }
  }

  /** The race: the content posted at mount reaches the document before its
      script runs and is lost; the initialisation report makes the host post
      it again, and the engine receives it after its creation. */
  method RaceScenario(c: string, q: TipTap.Queries)
  {
    var sys := new System(Some(c), q);
    sys.DeliverToEditor();
    sys.LoadPage();
    sys.EngineCreated();
    assert sys.adapter.calls == [];
    sys.DeliverToHost();
    assert sys.initialisedSeen && sys.host.content == c;
    sys.FlushToEditor();
    assert TipTap.LastSet(sys.adapter.calls[sys.createdAt..]) == Some(c);
  }

  /** A message that reaches the loaded document before `onCreate` is
      applied; the initialisation report that follows still makes the host
      re-send its content, so the engine again ends with it. */
  method LateCreateScenario(c: string, q: TipTap.Queries)
  {
    var sys := new System(Some(c), q);
    sys.LoadPage();
    sys.DeliverToEditor();
    assert sys.adapter.calls == [EditorAdapter.Effect(InitialContent(c))];
    sys.EngineCreated();
    sys.DeliverToHost();
    assert sys.initialisedSeen && sys.host.content == c;
    sys.FlushToEditor();
    assert TipTap.LastSet(sys.adapter.calls[sys.createdAt..]) == Some(c);
  }

  /** Once the queue has drained, a later press reaches the engine as
      exactly its own chain, after everything delivered before it. */
  method PressAfterFlushScenario(c: string, q: TipTap.Queries)
  {
    var sys := new System(Some(c), q);
    sys.LoadPage();
    sys.FlushToEditor();
    assert sys.adapter.calls == [EditorAdapter.Effect(InitialContent(c))];
    sys.PressButton(HostController.BoldButton);
    ghost var before := sys.adapter.calls;
    sys.FlushToEditor();
    assert sys.adapter.calls == before + [TipTap.Run(EditorAdapter.ActionChain(ToggleBold))];
  }
}
