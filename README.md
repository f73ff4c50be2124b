# wall — a Dafny model of the editor's core behaviour

`wall` is a block editor for Angular. A page is a tree of rows, columns and
bricks (text, divider, image and so on). This project models five pieces of
its behaviour and proves properties about them:

- **The wall view model** (`wall_view.dfy`, module `WallView`). It holds the
  brick selection and the focused brick. It guards move and remove requests
  before they reach the wall model, and it reacts to the wall model's
  structural events by moving focus or clearing the selection. It also
  projects the traversed rows into the canvas layout.
- **The wall model's plugin host** (`plugin_host.dfy`, module `PluginHost`).
  It initializes the configured plugins in order and keeps them in a
  name-keyed map. It holds the dictionary of registered plugin APIs and
  tears the plugins down.
- **The rich-input suggestion plugin** (`suggestion.dfy`, module
  `Suggestion`). This is the plugin state transition `apply`, which decides
  whether the trigger character opened a suggestion and what has been typed
  after it. It also covers:
  - the classification of a state change into hook calls in `update`;
  - `appendTransaction`;
  - the JSON projection of a document's top-level children.
- **The text brick's slash commands** (`text_brick.dfy`, module
  `TextBrick`). Typing `/` opens a list of brick types. While the list is
  open, keys drive it. With the list closed, Enter on `/tag` turns the brick
  into that type.
- **The pick-out (rubber-band selection) directive** (`pick_out.dfy`, module
  `PickOut`). A press starts a selection only once the dragged area is more
  than 5 pixels wide or tall. It then reports the area on every move and
  ends on release.

`common.dfy` (module `Common`) holds `Option` and `Present`. `Present`
models JavaScript truthiness of an optional id: the id exists and is not
the empty string.

Stateful objects are Dafny classes whose methods state the complete new
state. Observable effects become append-only logs:
- calls into the wall model (`wallCalls`);
- plugin hooks and emitted events (`trace`);
- core-API and DOM calls of the text brick (`log`);
- handler-service notifications and UI operations of the directive.

Work that the source defers with `setTimeout` becomes a queue of pending
actions that a separate method fires. The pure parts are functions:
`apply`, `update`'s classification, `appendTransaction`, `getContentJSON`,
the trigger regular expression and the per-row canvas projection. The
layout itself is the loop in the `GetCanvasLayout` method. Each is paired
with a reference definition, an inverse or a lemma.

The trigger regular expression `.*\c([^ ]*)$` is modelled as JavaScript
matches it for a trigger `c` whose escape `\c` stands for that character
itself, such as the `/` the editor uses:
- the search starts from each position, leftmost first;
- `.*` is greedy and backtracks;
- `.` stops at line terminators.

`TriggerTailIsTextAfterLastTrigger` then proves what the source's comment
intends: on text with no line terminator, the capture is the text after the
last trigger character, and there is no match when that text contains a
space.

## Model

| member | source | states |
|---|---|---|
| WallView.IndexOf | lib/wall/components/wall/wall-view.model.ts:205 | `indexOf` is -1 exactly when the id is absent; otherwise it is the first index holding it |
| WallView.SpliceOne | lib/wall/components/wall/wall-view.model.ts:207 | `splice(start, 1)` removes the element at a valid index, removes the last element for -1, and removes nothing past the end |
| WallView.RemoveFirstIsSpliceAtIndexOf | lib/wall/components/wall/wall-view.model.ts:204-210 | for a present id, splicing at its `indexOf` equals the reference "remove the first occurrence" |
| WallView.RemoveFirstMultiset | lib/wall/components/wall/wall-view.model.ts:204-210 | removing a present id takes exactly one copy of it out and keeps every other id |
| WallView.SpliceAtIndexOf | lib/wall/components/wall/wall-view.model.ts:204-210 | the source's splice-at-indexOf removes the first occurrence of a selected id; for an unselected id it drops the last selected id |
| WallView.FocusAfterRemoval | lib/wall/components/wall/wall-view.model.ts:158-173 | after a removal the previous brick is focused if present, else the next one, else none |
| WallView.SoleTextBrick | lib/wall/components/wall/wall-view.model.ts:318-339 | the removal guard fires exactly when the wall holds one brick and that brick is a text brick, and it names that brick |
| WallView.BrickIds | lib/wall/components/wall/wall-view.model.ts:319 | the wall's ids are listed one per brick in document order |
| WallView.WallViewModel.constructor | lib/wall/components/wall/wall-view.model.ts:21-33 | a new view model has no focus, an empty selection, media interaction enabled and no forwarded calls |
| WallView.WallViewModel.SelectBrick | lib/wall/components/wall/wall-view.model.ts:181-184 | the selection becomes exactly `[id]` and focus is cleared |
| WallView.WallViewModel.SelectBricks | lib/wall/components/wall/wall-view.model.ts:189-191 | the selection is replaced and focus is untouched |
| WallView.WallViewModel.AddBrickToSelection | lib/wall/components/wall/wall-view.model.ts:196-199 | the id is appended; earlier entries keep their order |
| WallView.WallViewModel.RemoveBrickFromSelection | lib/wall/components/wall/wall-view.model.ts:204-210 | a selected id loses its first occurrence (exactly one copy); an unselected id drops the last selected id; an empty selection stays empty |
| WallView.WallViewModel.UnSelectBricks | lib/wall/components/wall/wall-view.model.ts:215-217 | the selection becomes empty |
| WallView.WallViewModel.FocusOnBrickId | lib/wall/components/wall/wall-view.model.ts:236-243 | focus is cleared now and the id is queued to receive focus when the timer fires |
| WallView.WallViewModel.FirePendingFocus | lib/wall/components/wall/wall-view.model.ts:240-242 | the oldest queued id becomes the focused brick; with nothing queued nothing changes |
| WallView.WallViewModel.FocusOnPreviousTextBrick | lib/wall/components/wall/wall-view.model.ts:248-254 | focus is requested on the previous text brick only when the wall model names one |
| WallView.WallViewModel.FocusOnNextTextBrick | lib/wall/components/wall/wall-view.model.ts:259-265 | focus is requested on the next text brick only when the wall model names one |
| WallView.WallViewModel.EnableMediaInteraction | lib/wall/components/wall/wall-view.model.ts:270-272 | media interaction becomes enabled |
| WallView.WallViewModel.DisableMediaInteraction | lib/wall/components/wall/wall-view.model.ts:277-279 | media interaction becomes disabled |
| WallView.WallViewModel.MoveBrickAfterBrickId | lib/wall/components/wall/wall-view.model.ts:291-295 | the move is forwarded unchanged iff the anchor is not among the moved bricks; otherwise nothing happens |
| WallView.WallViewModel.MoveBrickBeforeBrickId | lib/wall/components/wall/wall-view.model.ts:300-304 | the move is forwarded unchanged iff the anchor is not among the moved bricks; otherwise nothing happens |
| WallView.WallViewModel.MoveBrickToNewColumn | lib/wall/components/wall/wall-view.model.ts:309-313 | the move, with its side, is forwarded unchanged iff the anchor is not among the moved bricks; otherwise nothing happens |
| WallView.WallViewModel.RemoveBrick | lib/wall/components/wall/wall-view.model.ts:318-326 | when the wall's only brick is a text brick, nothing is removed and focus is requested on it; otherwise the removal is forwarded and focus is untouched |
| WallView.WallViewModel.RemoveBricks | lib/wall/components/wall/wall-view.model.ts:331-339 | the same guard for a batch removal |
| WallView.WallViewModel.HandleEvent | lib/wall/components/wall/wall-view.model.ts:145-175 | add and turn-into events focus their brick; move events clear the selection; remove events focus the previous brick, else the next, else leave focus alone; other events change nothing |
| WallView.WallViewModel.OnFocusedBrick | lib/wall/components/wall/wall-view.model.ts:341-345 | the reporting brick becomes focused and the selection is emptied |
| WallView.WallViewModel.Reset | lib/wall/components/wall/wall-view.model.ts:351-355 | focus and selection are both cleared |
| WallView.ProjectRow | lib/wall/components/wall/wall-view.model.ts:55-68 | a canvas row has the plan row's columns and bricks in order; each brick keeps its id and state, gets the hash `tag + id` and the registry's component for its tag |
| WallView.GetCanvasLayout | lib/wall/components/wall/wall-view.model.ts:48-73 | one canvas row per traversed row, in order, each matching its row; no layout exactly when some brick's tag is unregistered (where the registry lookup throws) |
| WallView.ColumnIdsPreserved | lib/wall/components/wall/wall-view.model.ts:57-66 | a projected column lists the same brick ids in the same order |
| WallView.RowIdsPreserved | lib/wall/components/wall/wall-view.model.ts:55-68 | a projected row lists the same brick ids in the same order |
| WallView.LayoutIdsPreserved | lib/wall/components/wall/wall-view.model.ts:48-73 | the canvas lists exactly the traversed brick ids, in document order |
| PluginHost.InitTraceInConfigOrder | projects/ngx-wall/src/lib/wall/model/wall.model.ts:21-24 | plugins are initialized in configuration order, and each plugin's hook is called before its initialized event |
| PluginHost.OneEventPerPlugin | projects/ngx-wall/src/lib/wall/model/wall.model.ts:40-46 | initialization emits exactly one initialized event per configured plugin, in configuration order, carrying its name |
| PluginHost.RegisteredKeepsLastPerName | projects/ngx-wall/src/lib/wall/model/wall.model.ts:43 | a name is stored iff some configured plugin has it, and it maps to the last plugin of that name |
| PluginHost.KeyOrderListsKeysOnce | projects/ngx-wall/src/lib/wall/model/wall.model.ts:19 | the map's key order lists every stored name exactly once |
| PluginHost.DistinctNamesKeepConfigOrder | projects/ngx-wall/src/lib/wall/model/wall.model.ts:21-24 | with distinct names the map visits plugins in configuration order |
| PluginHost.DestroyCallsExactlyTheHooks | projects/ngx-wall/src/lib/wall/model/wall.model.ts:48-52 | teardown emits no event; it calls the teardown hook of exactly the stored plugins that define one |
| PluginHost.WallModel.constructor | projects/ngx-wall/src/lib/wall/model/wall.model.ts:12-24 | the API dictionary holds only `core2 = null`; the plugin map and its key order are those of setting each configured plugin in turn; the trace is the initialization trace |
| PluginHost.WallModel.InitializePlugin | projects/ngx-wall/src/lib/wall/model/wall.model.ts:40-46 | the hook is called, the plugin is stored under its name (a reused name keeps its position), then its event is emitted |
| PluginHost.WallModel.RegisterApi | projects/ngx-wall/src/lib/wall/model/wall.model.ts:27-30 | the name maps to the API, every other entry is unchanged, and the name is emitted once |
| PluginHost.WallModel.Destroy | projects/ngx-wall/src/lib/wall/model/wall.model.ts:32-34 | the teardown hooks are called in the map's key order, skipping plugins without one |
| PluginHost.WallModel.DestroyPlugin | projects/ngx-wall/src/lib/wall/model/wall.model.ts:48-52 | the teardown hook is called only if the plugin defines it |
| Suggestion.SegmentEnd | projects/ngx-rich-input/src/lib/prose-mirror.component.ts:398-399 | a greedy `.*` runs up to the first line terminator |
| Suggestion.Backtrack | projects/ngx-rich-input/src/lib/prose-mirror.component.ts:398-399 | backtracking finds the rightmost trigger position in range whose tail has no space, or proves there is none |
| Suggestion.Search | projects/ngx-rich-input/src/lib/prose-mirror.component.ts:398-399 | the search finds a match position iff one exists |
| Suggestion.TriggerTail | projects/ngx-rich-input/src/lib/prose-mirror.component.ts:396-404 | the capture is a space-free tail after a trigger character; there is no match exactly when no trigger has a space-free tail |
| Suggestion.LastIndexOf | projects/ngx-rich-input/src/lib/prose-mirror.component.ts:394-398 | reference definition: the last position of the trigger character, or -1 when it is absent |
| Suggestion.TriggerTailIsTextAfterLastTrigger | projects/ngx-rich-input/src/lib/prose-mirror.component.ts:394-404 | on single-line text the capture is the text after the last trigger character, and there is no match when that text holds a space |
| Suggestion.Apply | projects/ngx-rich-input/src/lib/prose-mirror.component.ts:297-414 | plugin meta wins verbatim; a non-empty selection resets; from idle, the plugin activates iff every trigger condition holds, with empty text at the cursor; while active, `enter` keeps the state; a cursor between nodes whose node before lacks the suggestion mark resets (copy-paste); otherwise the plugin stays active iff the trigger expression matches, with space-free text at the cursor |
| Suggestion.ActiveMatchIsTextAfterLastTrigger | projects/ngx-rich-input/src/lib/prose-mirror.component.ts:366-413 | while active, with the cursor inside a text node or at the end of the marked suggestion node, the match text becomes the text after the last trigger character, and the plugin deactivates exactly when that text contains a space |
| Suggestion.TypingIntoSuggestionNode | projects/ngx-rich-input/src/lib/prose-mirror.component.ts:374-412 | typing `m` after `hello /i` at the end of the marked suggestion node gives the match text `im` at the cursor |
| Suggestion.HookTransactionsAreQuiet | projects/ngx-rich-input/src/lib/prose-mirror.component.ts:58-82 | the `exit`-tagged mark removal keeps an idle plugin idle, and the `enter`-tagged mark addition keeps an active plugin as it is; neither triggers further hooks |
| Suggestion.Classify | projects/ngx-rich-input/src/lib/prose-mirror.component.ts:261-264 | started and stopped exclude each other, changed excludes both, one of started/stopped holds iff activity flips, and moved needs both states active |
| Suggestion.UpdateEffects | projects/ngx-rich-input/src/lib/prose-mirror.component.ts:256-280 | at most one reaction happens: on stop the marks are removed before `onExit` sees the previous match; on start the mark is added before `onEnter`; on a text change `onChange` sees the new match |
| Suggestion.AppendTransaction | projects/ngx-rich-input/src/lib/prose-mirror.component.ts:418-430 | a stored-marks reset is appended iff exactly one transaction was applied and it is `exit`-tagged; more or fewer give `undefined` |
| Suggestion.MarkToJson | projects/ngx-rich-input/src/lib/prose-mirror.component.ts:885-895 | a mark's JSON carries its type name, and the `attrs` key exactly when it has attributes |
| Suggestion.MarksToJson | projects/ngx-rich-input/src/lib/prose-mirror.component.ts:885-895 | one JSON entry per mark, in order, each that mark's JSON (so `attrs` appears exactly for marks with attributes) |
| Suggestion.NodeToJson | projects/ngx-rich-input/src/lib/prose-mirror.component.ts:878-898 | a child's JSON carries its type name and text, and the `marks` key exactly when it has marks |
| Suggestion.ContentJson | projects/ngx-rich-input/src/lib/prose-mirror.component.ts:877-900 | one entry per child, in order, with name, text and `marks` presence as above |
| Suggestion.MarksRoundTrip | projects/ngx-rich-input/src/lib/prose-mirror.component.ts:884-896 | the marks are recovered from their JSON |
| Suggestion.ContentJsonRoundTrip | projects/ngx-rich-input/src/lib/prose-mirror.component.ts:877-900 | omitting empty `marks`/`attrs` loses nothing: the children are recovered from the JSON |
| TextBrick.TurnIntoCalls | lib/text-brick/component/text-brick.component.ts:33-38 | the brick is turned into the new tag, followed by adding a text brick after it exactly when the tag is the divider `d` |
| TextBrick.IsTag | lib/text-brick/component/text-brick.component.ts:140-143 | the text is a command iff it is `/` followed by a registered brick tag |
| TextBrick.TextBrickComponent.constructor | lib/text-brick/component/text-brick.component.ts:22-41 | a new brick has its list closed, no placeholder, no calls and no pending timers |
| TextBrick.TextBrickComponent.SelectedTag | lib/text-brick/component/text-brick.component.ts:29-40 | a non-empty tag from the list first closes the list, then issues the turn (and divider) calls; an empty value does nothing |
| TextBrick.TextBrickComponent.OnBlur | lib/text-brick/component/text-brick.component.ts:43-45 | the placeholder is cleared |
| TextBrick.TextBrickComponent.OnFocus | lib/text-brick/component/text-brick.component.ts:47-49 | the placeholder becomes the commands hint |
| TextBrick.TextBrickComponent.TopKeyPressed | lib/text-brick/component/text-brick.component.ts:51-60 | with the list open, the key is suppressed and the list moves up; otherwise the base handler runs |
| TextBrick.TextBrickComponent.BottomKeyPressed | lib/text-brick/component/text-brick.component.ts:62-71 | with the list open, the key is suppressed and the list moves down; otherwise the base handler runs |
| TextBrick.TextBrickComponent.EnterKeyPressed | lib/text-brick/component/text-brick.component.ts:73-94 | with the list open, the list gets Enter and closing is scheduled; otherwise a command turns the brick into `text[1..]` (plus the divider call); any other text goes to the base handler |
| TextBrick.TextBrickComponent.EscapeKeyPressed | lib/text-brick/component/text-brick.component.ts:96-103 | an open list is closed with the key suppressed; with the list closed nothing happens |
| TextBrick.TextBrickComponent.OnTextChange | lib/text-brick/component/text-brick.component.ts:105-138 | the base handler always runs; an open list closes on empty text; a closed list opens on exactly `/` (editor blurred, refocus scheduled); otherwise the list state is unchanged |
| TextBrick.TextBrickComponent.HideBricksList | lib/text-brick/component/text-brick.component.ts:145-151 | afterwards the list is closed whatever its prior state; it is closed once only if it was open |
| TextBrick.TextBrickComponent.FireTimer | lib/text-brick/component/text-brick.component.ts:77-79 | the chosen pending timer is removed and runs: the list-closing timer closes the list, and the refocus timer (lines 134-136) focuses the editor |
| PickOut.AppendKeepsWellFormed | lib/pick-out/pick-out-area/pick-out-area.directive.ts:43-61 | within a press, a start sent only when none was sent, a change only after the start and nothing after the end keep the press well formed: at most one start, changes after it, the end last |
| PickOut.PickOutAreaDirective.constructor | lib/pick-out/pick-out-area/pick-out-area.directive.ts:26-28 | no press, not started, no range component, nothing sent |
| PickOut.PickOutAreaDirective.MouseDown | lib/pick-out/pick-out-area/pick-out-area.directive.ts:31-37 | a fresh area starts at the pointer and the selection is not started |
| PickOut.PickOutAreaDirective.MouseMove | lib/pick-out/pick-out-area/pick-out-area.directive.ts:39-64 | with no press nothing changes; before the start, `startPickOut` is sent (and nothing else) iff width > 5 or height > 5; after the start every move reports the area and the range component is created only if absent; the notifications since the last press grow by exactly what was sent, and they keep the per-press invariant (at most one start, changes after it, the end last) |
| PickOut.PickOutAreaDirective.ReportChange | lib/pick-out/pick-out-area/pick-out-area.directive.ts:43-54 | the area is reported and the range component exists afterwards, created only if it was absent |
| PickOut.PickOutAreaDirective.StartSelection | lib/pick-out/pick-out-area/pick-out-area.directive.ts:57-61 | `startPickOut` is sent once and the selection is started |
| PickOut.PickOutAreaDirective.MouseUp | lib/pick-out/pick-out-area/pick-out-area.directive.ts:66-79 | with a press: the area is destroyed, the range component removed if present, the press cleared, and `endPickOut` sent exactly once even if the drag never started; without one nothing happens |
| PickOut.DragAndRelease | lib/pick-out/pick-out-area/pick-out-area.directive.ts:31-79 | on a fresh directive, a press, a move past the threshold, a further move and the release send exactly start, the second move's area, end, and that is a well-formed press |

## Left out

- The wall model's layout tree is outside this model: its mutation engine, `traverse`, and the `getPreviousTextBrickId`/`getNextTextBrickId` navigation. The view model sees the wall as a fixed document-order list of `(id, tag)`. Traversal results and the navigation answers are parameters. Forwarded calls are logged, not carried out.
- WallView.GetCanvasLayout: the source throws on an unregistered tag. The model returns None instead.
- The `coreApi` method-binding reduce and `Object.seal` in `initialize` are left out. They are reflection over JavaScript objects.
- `isRegisteredBrick`, `getSelectedBrickIds`, `getFocusedBrickId`, `subscribe` and the view model's `events` subject are left out. They are plain getters or stream plumbing.
- RxJS subjects are append-only logs in the model. Subscriber scheduling is not modelled. Neither is re-entrancy: a plugin that calls `registerApi` from inside its `onWallInitialize`, or the dispatches made by the suggestion hooks.
- What plugin hooks, `onEnter`/`onExit`/`onChange` and the base text brick's handlers do is outside the model. Only the fact and order of the calls are recorded.
- `setTimeout` delays are not modelled. Deferred work is a pending entry that a separate method runs, in any order for the text brick's two timers.
- ProseMirror is not modelled:
  - `EditorView`, `dispatch`, DOM parsing and serialization;
  - `handleKeyDown`/`handleClick`, `replaceWithText`/`replaceWithNode`;
  - `SelectionSizeTooltip` geometry;
  - `updateStateProperties`.
- Suggestion.Apply: it sees a transaction through the facts it reads. These are the meta, whether the selection is empty, the stage meta, `docChanged`, the text before the cursor, the steps (as slice text), the cursor position, whether the cursor sits between nodes, and the node before it. How ProseMirror computes them is outside the model. The trigger is one character.
- rich-input.component.ts and the ProseMirror command helpers in commands.ts are not part of this model. They are schema and keymap wiring and thin wrappers over library calls.
- The text brick's modal geometry and the list component it opens are left out. The list's answers arrive through `SelectedTag`.
- The pick-out area model (`PickOutAreaModel`) is not part of this model: MouseMove receives the rectangle it reports. The DOM work of attaching and detaching the range component is recorded as one UI operation each.
- Suggestion.TriggerTail: the trigger is taken as a literal character. The source builds the expression from the escape `\c`. For letters and digits such as `d`, `w`, `s`, `b`, `n` or `1` that escape is a class, an assertion or a control escape, not the character. The model agrees with the source for punctuation triggers such as `/`. Characters are Dafny characters rather than UTF-16 code units, so a trigger or text outside the Basic Multilingual Plane is not modelled.
- WallView.WallViewModel.SelectBricks and WallView.WallViewModel.RemoveBrickFromSelection: the selection is a value, so array aliasing is not modelled. The source stores the caller's own array in `selectBricks` and hands it out through `getSelectedBrickIds`. `removeBrickFromSelection` then splices that possibly shared array in place before replacing it with a copy. Any other holder of the array loses the element too, and the model does not show that.
- PickOut.PickOutAreaDirective: handler-service notifications and UI operations are kept in two separate logs, so their interleaving is not recorded. In the source, a move after the start reports the area before it attaches the range component. A release destroys the area, then removes the range component, then sends `endPickOut`. Each log keeps its own order.
