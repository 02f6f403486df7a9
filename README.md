# A verified model of the host/editor bridge of tiptap-react-native-example

The repository embeds a TipTap rich-text editor inside a React Native
WebView. The host component (`RichTextEditor`) posts commands and content to
the embedded document. The document's script (`src/editor/main.ts`) runs the
engine and reports state back. This project models that message protocol and
the state each side keeps, and proves what each side does with every message.
It also joins the two sides with FIFO queues and proves the race-recovery
rule: once the host has seen `editorInitialised`, and the queue towards the
editor has drained, the last content the engine got after its creation is the
host's current content.

Modules:

- `Wrappers` (`wrappers.dfy`): `Option`.
- `Protocol` (`protocol.dfy`): `EditorState`, `EditorAction`, `NativeMessage`,
  `WebViewMessage`, and `NativeWire`. `NativeWire` is the parsed record
  (`kind`, `payload`) that the editor's listener actually receives. The
  functions `ToWire` and `FromWire` translate between it and the typed
  messages.
- `TipTap` (`tiptap.dfy`): the engine as a black box. Commands and calls are
  modelled. The document is kept as a term of the commands applied to it, so
  the model never says what a toggle does. The engine queries (`getHTML`, the
  dry-run `can`, `isActive`) are uninterpreted functions, passed in as a
  `Queries` record.
- `EditorAdapter` (`editor_adapter.dfy`): `getEditorState` as `DeriveState`;
  the action table as `ActionChain`; the listener's dispatch as `Listen`; and
  class `Adapter`, holding the engine, its call log and the outbox of
  reports, with the three hooks and the listener as methods.
- `HostController` (`host_controller.dfy`): the buttons and their payloads,
  the active/disabled style conditions, the fold of reports, and class
  `Host`, holding `content`, the retained `state` and the `outbox`.
- `Bridge` (`bridge.dfy`): class `System`, which holds both sides. The
  transport consists of step methods that each deliver one message. A
  message delivered before the document's script has run is lost.

On these points the model follows the code:

- Malformed messages are not silently dropped. `JSON.parse` throws on text
  that is not JSON.
- An action payload missing from the action table makes the looked-up
  function undefined, and calling it throws. The model reports this as
  `Threw` and leaves the engine untouched.
- `onCreate` posts only `editorInitialised`. It does not post a snapshot.
- The host never posts `blur`.
- The host has no strike button, so it never posts `toggleStrike`.
- The Toggle List button is never drawn disabled.
- The `content` effect posts only when the `content` value changes (or at
  mount), not on every render.
- The listener tests `kind` with three separate `if`s. The model writes them
  the same way; the kinds are distinct strings, so at most one branch runs.

## Model

| member | source | states |
|---|---|---|
| Protocol.ActionName | src/editor/main.ts:63-78 | each of the six actions has a wire name, and looking that name up in the action table gives the action back |
| Protocol.ActionNamedIff | src/editor/main.ts:63-78 | looking a name up gives action `a` exactly when `a`'s name is that string, so names and actions are in bijection |
| Protocol.ToWire | src/editor/main.ts:80-83 | every typed host message is written as a kind/payload record that reads back as the same message |
| Protocol.FromWireIff | src/editor/main.ts:80-83 | a parsed record reads as message `m` if and only if `m` is written as exactly that record |
| EditorAdapter.SnapshotDeterminedByQueries | src/editor/main.ts:28-41 | `DeriveState` (`getEditorState`) reads exactly ten engine answers and nothing else: two engines that agree on `getHTML`, on the dry runs of the bold, italic and strike chains with focus, on the dry runs of sink and lift alone, and on `isActive` for `bulletList`, `bold`, `italic` and `strike` give the same snapshot |
| EditorAdapter.SnapshotReadsItsQueries | src/editor/main.ts:28-41 | the snapshot's `html` is `getHTML`, and each `is*Active` flag is `isActive` on the name of its own mark or node (`bulletList`, `bold`, `italic`, `strike`) |
| EditorAdapter.ActionChain | src/editor/main.ts:71-78 | every action runs a two-step chain that first focuses the editor |
| EditorAdapter.ActionChainInjective | src/editor/main.ts:71-78 | two actions run the same engine chain only if they are the same action |
| EditorAdapter.CanFlagsAreDryRunsOfActions | src/editor/main.ts:31-35 | canBold, canItalic and canStrike are dry runs of the exact chains the actions run; canSinkListItem and canLiftListItem are dry runs of the command without the focus step |
| EditorAdapter.Listen | src/editor/main.ts:85-102 | the dispatch throws exactly for kind `action` with a payload missing from the table; a well-typed message makes exactly its one engine call; any other record makes no call |
| EditorAdapter.ListenTyped | src/editor/main.ts:80-102 | whatever the host can write is dispatched to exactly its own engine call and never throws |
| EditorAdapter.Adapter.constructor | src/editor/main.ts:43-45 | the engine starts with an empty document and an empty call log, and nothing has been posted |
| EditorAdapter.Adapter.OnCreate | src/editor/main.ts:46-48 | the create hook posts exactly one `editorInitialised` |
| EditorAdapter.Adapter.OnSelectionUpdate | src/editor/main.ts:49-54 | the selection hook posts exactly one update carrying the snapshot derived from the current engine, and does not touch the engine |
| EditorAdapter.Adapter.OnUpdate | src/editor/main.ts:55-60 | the update hook posts exactly one update carrying the snapshot derived from the current engine, and does not touch the engine |
| EditorAdapter.Adapter.Perform | src/editor/main.ts:72-77 | one engine invocation is one step of the engine and one entry in its log |
| EditorAdapter.Adapter.OnMessage | src/editor/main.ts:85-102 | the listener appends exactly the calls `Listen` gives, and advances the engine by exactly those calls; when it throws, nothing changes; it posts nothing, and the engine always equals the replay of its log |
| HostController.Payload | src/components/RichTextEditor.tsx:49-109 | each button sends a fixed action, and none sends `toggleStrike` |
| HostController.PayloadBijective | src/components/RichTextEditor.tsx:49-109 | different buttons send different actions, and every action except strike has a button |
| HostController.ToolbarRendering | src/components/RichTextEditor.tsx:53-106 | every button is drawn from the flag of the action it sends: a toggle button is active iff that action's `is*Active` flag is set, and is never disabled; a list-move button is disabled iff that action's `can*` flag is clear, and is never active |
| HostController.LastWriteWins | src/components/RichTextEditor.tsx:126-128 | after any sequence of reports, the retained snapshot is the last update's payload unchanged, or the earlier snapshot if no update came |
| HostController.RetainedSnoc | src/components/RichTextEditor.tsx:126-128 | one more report is one more application of the handler, so a run of `Host.OnReport` calls leaves the state that the fold over those reports gives |
| HostController.RepliesAreResends | src/components/RichTextEditor.tsx:129-134 | over any report sequence, the host posts one `initialContent` of the current content per `editorInitialised`, and nothing else |
| HostController.RepliesSnoc | src/components/RichTextEditor.tsx:129-134 | one more report adds exactly its own reply, so a run of `Host.OnReport` calls posts the replies to the reports it handled |
| HostController.Host.constructor | src/components/RichTextEditor.tsx:22-40 | a missing `content` is the empty string; the retained state is empty HTML with all nine flags false; mounting posts that content once |
| HostController.Host.SetContent | src/components/RichTextEditor.tsx:38-40 | a changed `content` posts exactly one `initialContent` carrying it; an unchanged one posts nothing |
| HostController.Host.Press | src/components/RichTextEditor.tsx:49-109 | a press posts exactly the button's action, whatever the flags say, and leaves the retained state alone |
| HostController.Host.TapSurface | src/components/RichTextEditor.tsx:111-114 | a tap on the surface posts `editor`/`focus` |
| HostController.Host.OnReport | src/components/RichTextEditor.tsx:121-135 | an update replaces the retained state wholesale and posts nothing; an initialisation posts `initialContent` of the current content and keeps the state; every class method keeps the invariant that the host never posts `blur` or `toggleStrike` |
| Bridge.ToolbarShowsEngine | src/components/RichTextEditor.tsx:53-106 | once a snapshot reaches the host, each button's style is decided by exactly one engine query |
| Bridge.System.constructor | src/components/RichTextEditor.tsx:38-40 | at mount the content is already in flight, the retained state is empty HTML with every flag false, and the document has not loaded |
| Bridge.System.LoadPage | src/editor/main.ts:43-85 | the document script builds a fresh engine and starts listening |
| Bridge.System.EngineCreated | src/editor/main.ts:46-48 | the engine's single create event queues `editorInitialised` |
| Bridge.System.EngineChanged | src/editor/main.ts:49-60 | an engine change queues a snapshot of the engine as it was; the engine and its call log are not touched |
| Bridge.System.ChangeContent | src/components/RichTextEditor.tsx:38-40 | a changed content queues exactly one `initialContent` carrying it; an unchanged one queues nothing; the retained state is kept, and so is the race-recovery invariant |
| Bridge.System.PressButton | src/components/RichTextEditor.tsx:49-109 | a press queues the button's action; the retained state, the content and the invariant are kept |
| Bridge.System.TapSurface | src/components/RichTextEditor.tsx:111-114 | a surface tap queues a focus request; the retained state, the content and the invariant are kept |
| Bridge.System.DeliverToEditor | src/components/RichTextEditor.tsx:42-44 | the oldest host message is delivered in order; it is lost before the page has loaded, and afterwards it becomes exactly its one engine call, with the editor's outbox unchanged |
| Bridge.System.DeliverToHost | src/components/RichTextEditor.tsx:121-135 | the oldest report is delivered in order; an `editorInitialised` makes the host re-send its current content and keep its state; an update replaces the state, posts nothing and leaves the initialisation flag alone |
| Bridge.System.FlushToEditor | src/components/RichTextEditor.tsx:129-134 | draining delivers every queued host message once and in order: the engine's log grows by exactly the calls of those messages; and race recovery: once the host has seen `editorInitialised`, the last content the engine received after its creation is the host's current content; the editor's outbox and the other transport counters are unchanged |

## Left out

- React rendering, hook scheduling and the style values: only the boolean conditions that pick a style are modelled.
- The WebView bridge, `postMessage` and `JSON.stringify`/`JSON.parse`. Posting a message appends it to an outbox. Delivery is a step of `Bridge.System`.
- Text that is not JSON makes `JSON.parse` throw on either side. The model starts from parsed messages only. Valid JSON that is not an object is left out too: for `null`, reading `kind` throws; a number or an array matches none of the kinds and is ignored.
- A parsed host message whose payload is missing or is not a string is left out. So is an `initialContent` payload that is a JSON document rather than HTML.
- The host's inbound reports are modelled as typed `WebViewMessage` values. A report with another `kind` is ignored by the source and is left out. An `editorStateUpdate` without a payload would make the retained state `undefined`; the model cannot represent that, and the adapter never sends one.
- An action payload that names a member inherited by every JavaScript object (such as `toString`) finds an inherited function rather than `undefined`. The model treats every payload missing from the table as the failing lookup.
- Engine internals: HTML canonicalisation, what the toggles, sink, lift and `setContent` do to the document, and the selection. The queries are uninterpreted, and a formatting command only adds to a term of the document. No toggle involution or idempotence is claimed.
- Typing and selection changes the user makes inside the embedded document are not modelled as calls. The engine hooks can fire at any step of `Bridge.System`.
- Real timing and concurrency: the bridge is a sequential interleaving of single steps. Transport loss after the page has loaded, and teardown, are not modelled.
- Bridge.System.FlushToEditor: the race-recovery property is stated for the host's current content when the queue drains. A content that was replaced by a newer one before the re-send is not promised to arrive, and the source does not promise it either.
- App.tsx (a static bootstrap with a literal content string), babel.config.js and the bundled editor page are not part of this model.
