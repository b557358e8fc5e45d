# flammable, modelled in Dafny

flammable is a small flux library. Named **stores** hold application
state. **Action creators** are grouped by name, and `sendAction('group.event', ...)`
calls one of them and hands its result to the **action listeners** of that
group and event. Most of those listeners are store handlers registered by
`addStore`: each receives the result with an updater that applies a
`React.addons.update` patch to its store.

Components **subscribe** with a *shape*, a nested object whose leaves are
labels. The shape is merged into a shared **listener trie**, and the
component gets the current value for every label. Each patch enqueues the
store paths it names into a pending batch, and one timer is armed per
batch. When the timer fires, `sendUpdates` walks the trie along every
pending path and below it. It calls each listener found there once, with
the store value at its node.

The model covers:

- `lib/utils.js`: `crawlShape`, `walkShape`, `diffShape` and `walkTree`, plus the
  `unsubShape` behaviour that `test/utils.js` expects.
- `lib/flux.js`: `getUpdates` and `crawlUpdates`, and the `Flux` class apart from
  `off`, promise settlement and the five-argument forms of `emit` and `handleAction`.
- `lib/decorator.js`: `makeListeners`.

Files:

- `values.dfy` (`JsValues`): the JavaScript values involved, and callbacks
  compared by identity (`fn.bind` makes a new one). It also has
  `split`/`join` on a one-character separator, with their round trips.
- `trie.dfy` (`ListenerTrie`): shapes, the trie, and the specification
  functions. `Walked` describes `crawlShape` and `walkShape`, `Diffed`
  describes `diffShape`, `Unsubscribed` describes `unsubShape`, and
  `Below`/`Reach` give who `walkTree` and `sendUpdates` call. Each comes
  with a path-by-path lemma.
- `utils.dfy` (`Utils`): the walks as methods over the trie value, proved
  against those functions. The `result` object is a map. The `forEach`
  bodies of `crawlShape` and `walkShape` are the methods `CrawlEntry` and
  `WalkEntry`. The inner `$listeners.forEach` of `walkTree` is `CallEach`,
  and its outer body is written inline in the loop of `WalkTree`.
- `updates.dfy` (`PatchPaths`): `crawlUpdates`/`getUpdates` and the
  separator U+FDD0.
- `flux.dfy` (`FluxCore`): the class `Flux`, with one field per property
  of the JavaScript object. It also holds the specification functions
  `Updated`, `Handled`, `Dispatched` and `Target`, and the lemmas about
  them.
- `decorator.dfy` (`Decorator`): `makeListeners`.
- `findings.dfy` (`Findings`): the two defects listed below, as written.

Things the library does not own are explicit. `World.patch` stands for
`React.addons.update`. `World.call` is what a user function returns.
`World.handle` is the list of patches a store handler gives its updater
before returning. Listener invocations are appended to `log`, as
`Call(callback, arguments)`. `raf()` adds one to `scheduled`, and `Flush`
is the timer firing. The model leaves the order of `Object.keys`, `for ... in` and `Set`
iteration open. JavaScript fixes that order, so every property proved
here holds for it too. The properties that depend on the order are
listed under "## Left out".

Some files of the repository expect more of `Flux` than `lib/flux.js`
provides. The model follows `lib/flux.js`:

- The asynchronous-action test (`test/flux.js:66-122`) expects store
  handlers of the form `start(store, tid, args)`, `done` and `error`.
  Each receives a transaction id, and `start` runs before the promise
  settles. `lib/flux.js` mints no transaction id and sends no `start`
  notification. Its settlement path (lines 130-132) emits with `'done'`
  or `'error'` in the position the test uses for the id.
- `lib/decorator.js:119` calls `flux.unsubscribe`, which `Flux` does not
  define.
- The removal walk is modelled as the `unsubShape` that `test/utils.js` expects.

## Model

| member | source | states |
|---|---|---|
| JsValues.SplitJoin | lib/flux.js:81 | splitting a key joined from segments that lack the separator gives those segments back |
| JsValues.JoinSplit | lib/flux.js:140 | joining the pieces of a split gives the original string back, whatever it contains |
| JsValues.JoinInjective | lib/flux.js:140 | distinct separator-free paths never collapse into one pending key |
| ListenerTrie.WalkedAt | lib/utils.js:22-43 | a walk keeps every node and creates the nodes on the shape's paths. It changes a listener set only at a terminal, only by that terminal's callback, and only when the other shape has nothing truthy at that path |
| ListenerTrie.CrawlIdempotent | test/utils.js:41-49 | subscribing the same shape and callbacks twice gives the same trie as subscribing once |
| ListenerTrie.DiffAt | lib/utils.js:45-58 | diffing removes the callback of each `prev` terminal that `next` lacks and adds the callback of each `next` terminal that `prev` lacks. A path present in both keeps its listeners, and no node is deleted |
| ListenerTrie.DiffRoundTrip | lib/utils.js:45-58 | diffing from `a` to `b` and back restores every listener set, when the removed callbacks were registered and the added ones were not |
| ListenerTrie.UnsubscribedAt | test/utils.js:66-79 | unsubscribing removes exactly each terminal's callback from the node at its path, and adds or deletes no node |
| ListenerTrie.SubscribeUnsubscribe | test/utils.js:66-79 | subscribing and then unsubscribing a shape restores every listener set, when none of its callbacks was there before |
| ListenerTrie.ReportedAll | lib/utils.js:4-20 | `crawlShape` reports every label of the shape |
| ListenerTrie.ReportsWithAt | lib/utils.js:10 | a reported value is the store value at a path where the shape has that label |
| ListenerTrie.ReportedAt | lib/utils.js:52-57 | a label is reported exactly when it sits at a terminal of the new shape where the old shape has nothing truthy |
| ListenerTrie.BelowAt | lib/utils.js:60-73 | the listeners below a node are exactly those held at some non-empty path under it |
| ListenerTrie.BelowWithAt | lib/utils.js:63-68 | `walkTree` passes each listener the value at a node that holds it |
| ListenerTrie.ReachAt | lib/flux.js:80-96 | a key reaches exactly the listeners at a non-empty path that is a prefix or an extension of the key's path |
| ListenerTrie.ReachWithAt | lib/flux.js:84-92 | and passes each the store value at such a path |
| Utils.CrawlShape | lib/utils.js:4-20 | the new trie is `Walked(tree, shape, none, Add)`. `result` gains exactly the shape's labels, and each holds the store value at a path with that label |
| Utils.CrawlEntry | lib/utils.js:5-19 | one `forEach` iteration of `crawlShape` |
| Utils.WalkShape | lib/utils.js:22-43 | the corrected walk: the trie is `Walked(...)`. The removal walk leaves `result` alone; the adding walk records each label that the other shape lacks |
| Utils.WalkEntry | lib/utils.js:23-42 | one `forEach` iteration of the corrected `walkShape`, with the `diffShape` callbacks inlined |
| Utils.DiffShape | lib/utils.js:45-58 | the corrected diff: the trie is `Diffed(tree, prev, shape)`, and `result` gains the labels new in `shape`, with their values |
| Utils.UnsubShape | test/utils.js:66-79 | the trie is `Unsubscribed(tree, shape)` |
| Utils.CallEach | lib/utils.js:65-69 | each listener of the set not yet notified is called once with the value and marked notified |
| Utils.WalkTree | lib/utils.js:60-73 | every listener below the node that is not yet notified is called exactly once, with the value at a node holding it. `updated` gains all of them |
| PatchPaths.ChangedAt | lib/flux.js:11-24 | a path is reported exactly when it extends the start by non-`$` keys and the patch there is an object with a `$` key |
| PatchPaths.CrawlUpdates | lib/flux.js:11-24 | the accumulator keeps its prefix and gains each changed path exactly once |
| PatchPaths.GetUpdates | lib/flux.js:5-9 | the list holds each changed path of the store exactly once |
| PatchPaths.UpdatePathShape | lib/flux.js:5-9 | every path starts with the store name, continues with non-`$` keys, and ends at a command |
| PatchPaths.UpdateKeyParts | lib/flux.js:140 | a pending key splits back into its path when no key holds U+FDD0 |
| FluxCore.HandledFolds | lib/flux.js:56-59 | a handler's patches change only its own store. The store ends up holding them folded over its value, or the first rejection is thrown. The log is untouched |
| FluxCore.HandledSchedulesOnce | lib/flux.js:135-141 | however many updates a handler makes, at most one flush is scheduled, and none if a batch is open. Pending keys only grow, and an open batch keeps its flush |
| FluxCore.DispatchedSchedulesOnce | lib/flux.js:111-116 | the same for all listeners of an action |
| FluxCore.DispatchedLog | lib/flux.js:111-116 | when nothing throws, each plain listener receives the action's value once, in registration order |
| FluxCore.TargetDotted | lib/flux.js:125-126 | `group.event` resolves to the creator registered under that group and event, and fails otherwise |
| FluxCore.TargetListed | lib/flux.js:121-124 | `[name, ...bound]` calls the creator of `name` with the bound arguments first |
| FluxCore.NotifyPath | lib/flux.js:80-96 | for one key: exactly the listeners the key reaches that were not yet notified are called, once each, with their node's value |
| FluxCore.NotifiedAt | lib/flux.js:78-99 | a flush calls a listener exactly when one of its nodes is on or below the path of a pending key |
| FluxCore.NotifiedWith | lib/flux.js:78-99 | each call passes the store value at such a node |
| FluxCore.UpdateReaches | lib/flux.js:37-41 | after a successful update, every listener on or below a changed path is among those the next flush calls |
| FluxCore.Flux.constructor | lib/flux.js:28-35 | empty trie, listeners, stores and actions. No open batch |
| FluxCore.Flux.Raf | lib/flux.js:158-165 | schedules one flush |
| FluxCore.Flux.EnqueueUpdates | lib/flux.js:135-141 | opens a batch and schedules a flush only when none is open, then adds the joined keys |
| FluxCore.Flux.Update | lib/flux.js:37-41 | the state is `Updated(...)`. A rejected patch changes nothing; otherwise the store gets the new value and its changed keys are enqueued |
| FluxCore.Flux.HandleAction | lib/flux.js:56-64 | the state is `HandledAction(...)`. A non-function handler throws a `TypeError` |
| FluxCore.Flux.Run | lib/flux.js:114-115 | one listener of an action: a store handler or a logged call |
| FluxCore.Flux.Emit | lib/flux.js:111-118 | the state is `Dispatched` over the event's listeners. A missing group or event does nothing |
| FluxCore.Flux.SendAction | lib/flux.js:120-133 | resolves the creator as `Target` does, throws a `TypeError` where that fails, and emits a result that is not thenable |
| FluxCore.Flux.OnAction | lib/flux.js:101-109 | appends the listener to its group and event's list and to no other |
| FluxCore.Flux.AddGroup | lib/flux.js:45-47 | registers one store handler per event of one group |
| FluxCore.Flux.AddStore | lib/flux.js:43-50 | sets the store to `init()`. Every group and event of `listeners` gains one handler for the store. A non-function `init` throws |
| FluxCore.Flux.AddActions | lib/flux.js:52-54 | registers the action creators of a group |
| FluxCore.Flux.Subscribe | lib/flux.js:66-70 | the trie is `Walked(...)`, and the data has one entry per label, with its current value |
| FluxCore.Flux.Diffscribe | lib/flux.js:72-76 | the trie is `Diffed(...)`, and the data holds the new labels |
| FluxCore.Flux.SendUpdates | lib/flux.js:78-99 | every listener reached from the batch is called exactly once, with its node's value, and the batch closes. Without a batch it throws |
| FluxCore.Flux.Flush | lib/flux.js:158-165 | one scheduled timer runs `sendUpdates` |
| Decorator.MakeListeners | lib/decorator.js:6-16 | every label of the shape gets an updater. Existing ones are kept, and a new one is the component's update bound to its label |
| Decorator.MakeEntry | lib/decorator.js:8-14 | one iteration of the `for ... in` loop |
| Decorator.UpdaterCall | lib/decorator.js:84-86 | a notification with value `v` becomes `update(label, v)` |
| Findings.WalkShapeAsWritten | lib/utils.js:22-43 | as written, the walk throws a `ReferenceError` exactly when the shape has a label |
| Findings.WalkEntryAsWritten | lib/utils.js:27-28 | one iteration of `walkShape` as written |
| Findings.DiffShapeAsWritten | lib/utils.js:45-46 | as written, every call throws a `ReferenceError` and changes nothing |
| Findings.DiffShapeAsTested | test/utils.js:81-150 | on the test's input, after the corrected diff the root and `three` hold no listeners, `one` keeps `two`, `three.four` keeps its `$listeners` set, now empty, and `three.seven` gets `s7`. An empty `result` becomes exactly `{s7: 8}` |

## Left out

- The raf timer (`setImmediate`/`setTimeout`) is a counter plus `Flush`. Timer order and re-entrancy are not modelled.
- The constructor's `sendUpdates.bind` is not modelled.
- Promise settlement in `sendAction` (lib/flux.js:130-132) is left out. So are the five-argument forms of `emit` and `handleAction` (lib/flux.js:60-63, 117), which only settlement reaches.
- A thenable result counts as `Done` with no emit. This misses one synchronous error. When `then` or `catch` is truthy but not callable, as in `{then: 1, catch: 1}`, lines 131-132 throw a `TypeError` at once. The same happens when the value `then` returns has no callable `catch`.
- User code is reduced to `World`:
  - Handlers that call the updater later, or that re-enter `Flux` (for example a listener that subscribes), are not modelled.
  - Exceptions thrown by user code, `init()` or listener callbacks are not modelled.
- `off` (lib/flux.js:154-156) calls `removeListener`, which `Flux` does not define. It is not modelled.
- `lib/decorator.js:119` calls `flux.unsubscribe`, which `Flux` does not define. The removal walk is modelled as `Utils.UnsubShape`, after `test/utils.js`.
- Only own data properties are modelled:
  - Not modelled: prototype properties such as `toString`, string indexing, `for ... in` over a string, and `$listeners` used as a path segment or shape key.
  - Arrays are objects whose keys are indices.
- Strings are sequences of characters, not UTF-16 code units. Numbers are integers.
- `lib/store.js`, `lib/tag-store.js`, `lib/flux-react.js`, `lib/flux-top.js`, the React component lifecycle in `lib/decorator.js`, the event channel and the demo tests are not part of this model.
- Utils.CrawlShape: requires every label to have a callback. Where one is missing, JavaScript would put `undefined` into the set. The same holds for Utils.WalkShape, Utils.DiffShape, Utils.UnsubShape, FluxCore.Flux.Subscribe and FluxCore.Flux.Diffscribe.
- Utils.CrawlShape: when two paths of a shape share a label, the result holds the value at one of them. JavaScript keeps the last one in key order.
- FluxCore.Flux.SendUpdates: states who is called, once each and with what value. The call order, which follows `Set` and key insertion order, is not stated.
- FluxCore.UpdateReaches: holds only for paths whose keys do not contain U+FDD0. Such a key splits into different segments.
- Findings.WalkShapeAsWritten: states the outcome only. The nodes created before the throw (lib/utils.js:24-26) are not stated.
- Findings.WalkEntryAsWritten: states the outcome of one iteration only. The node that lib/utils.js:24-26 creates before line 28 throws is not stated.

## Findings

| source | as written | input that shows it | evidently intended | confidence | as-written member | corrected member |
|---|---|---|---|---|---|---|
| lib/utils.js:28 | `walkShape` assigns `result[shape[name]]`, but `result` is not bound in `walkShape`, so module code throws a `ReferenceError` | any shape with a label, e.g. `walkShape({one: 'two'}, null, obj, {}, cb)` (`walkShape` is exported at lib/utils.js:2) | no write in `walkShape`; the `diffShape` callback records new labels (line 55) | high, not executed | Findings.WalkShapeAsWritten | Utils.WalkShape |
| lib/utils.js:46 | `diffShape` passes `listeners`, which is unbound, as the trie in both `walkShape` calls (lines 46 and 52), so every call throws a `ReferenceError` | `diffShape(shape, shape2, obj, listentree, result, fns)` from `test/utils.js:131` | walk `listentree` | high, not executed | Findings.DiffShapeAsWritten | Utils.DiffShape |
