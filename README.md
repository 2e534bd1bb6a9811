# xible flow engine: a Dafny model of its core

xible runs flows: graphs of nodes whose outputs connect to other nodes'
inputs. A flow runs in a worker process that the master starts, stops and
feeds with `directNodes`. This project models, in Dafny, the parts of xible
that keep that machinery consistent.

- **Nodes and ports** (`nodes.dfy`, with `fanin.dfy`, `vault.dfy`,
  `registry.dfy`, `ipc.dfy`, `js.dfy`). A node keeps name-keyed input and
  output registries.
  - The port constructor validates its fields and refuses the type
    `'global'`.
  - An input pulls values (`getValues`): it asks every origin for its value
    and folds the callbacks in whatever order they arrive.
  - An output pushes (`trigger`): it hands each branch its own split flow
    state.
  - Status and progress operations check their arguments, stamp fresh ids
    and relay one message to the master while the process is connected.
  - `error()` normalises and reports an error.
  - The vault is the process-wide secret store, keyed by node id, whose
    entries are merged into a node's data when the node is built.
- **Worker supervision** (`worker.dfy`). The worker's handlers for `start`,
  `stop`, `directNodes` and unhandled rejections act over one mutable flow
  slot.
  - Node names are de-duplicated while their code is loaded.
  - A failed load reports `stop`.
  - The start chain sends `started` only when the run succeeds. Any failure
    sends `stop` and stops the flow.
- **Type definitions** (`typedef.dfy`): the validating `TypeDef` constructor
  and the name-keyed registry, where adding a definition replaces any earlier
  one of the same name.
- **View routing** (`views.dfy`): view-name normalisation, path splitting,
  the `navigate` pipeline from location path to rendered view, `loadNav` and
  `remove`.
- **Editor bookkeeping** (`editor.dfy`, `duplicate.dfy`):
  - the selection, which never holds an item twice;
  - the mouse-event decision table;
  - deleting nodes and connectors;
  - propagating global outputs to unconnected inputs;
  - the three passes of `duplicate`, which copy nodes, the connectors
    between them and the connectors that leave or enter the selection.

How the model represents the runtime:

- Event emitters are one event log (`Nodes.EventLog`).
- The process channel is `Ipc.Channel`. A send while detached is dropped.
- Foreign code is passed in as its outcome: a node's `require`, the
  framework's `init()`, a flow's `initJson`/`start`/`direct` and a view's
  `init()`.
- JavaScript values are the datatype `Js.JsValue`.

## Model

| member | source | states |
|---|---|---|
| Nodes.PortConfigOf | app/Node/index.js:604-647 | The port constructor fails with the 'global' TypeError exactly when `type` is the string 'global'. Each field is kept only when it has the right JavaScript type and otherwise takes its default. A falsy argument gives all defaults. |
| Nodes.Port.constructor | app/Node/index.js:604-647 | A new port has the validated settings, no name, no node and no connectors. |
| Nodes.Port.New | app/Node/index.js:604-647 | `new NodeInput/NodeOutput(obj)` succeeds iff the spec validates. The failure is the 'global' TypeError. On success the port is fresh, carries the validated settings and starts unattached with no connectors. |
| Nodes.Port.IsConnected | app/Node/index.js:663-678 | A port with connectors is connected. A non-global port is connected iff it has connectors. A global port of a node in a flow also counts that flow's global outputs of its type. |
| Nodes.Port.Sources | app/Node/index.js:695-704 | The connectors `getValues` pulls from are the input's own when it has any. A global input without any gets one origin-only stand-in per global output of its type. A non-global input without any gets none. |
| Nodes.Port.GetValues | app/Node/index.js:689-747 | Without a state it throws before emitting anything. A global input without connectors on a node without a flow throws a TypeError. With no sources it resolves to `[]` and emits nothing. Otherwise it emits one `trigger` per source carrying the caller's state, then one `triggerdone` per callback on the origin that answered. It resolves exactly when every source has called back once, with the callbacks' contributions concatenated in arrival order; until then it is still pending. |
| Nodes.Port.RequestAll | app/Node/index.js:716-721 | The emission loop asks every origin once, in connector order, with the caller's state. |
| Nodes.Port.Collect | app/Node/index.js:721-741 | Each arriving callback signals `triggerdone` on its own origin. The promise resolves with the aggregate exactly when the number of callbacks reaches the number of connectors. |
| Nodes.Port.Trigger | app/Node/index.js:757-772 | Without a state it throws before emitting. Otherwise it emits `triggerout` once, then for each connector `trigger` on the destination node followed by `trigger` on the destination input. The input's `trigger` carries a freshly split state, distinct for every connector. It succeeds iff every destination is attached to a node. |
| Nodes.FlowStateCheck | app/Node/index.js:589-597 | Passes iff a state is given. Otherwise it throws the FlowState precondition error. |
| Nodes.Node.Bare | app/Node/index.js:16-31 | A node starts with its name, id and data, no flow and empty port registries. |
| Nodes.Node.FromSpec | app/Node/index.js:12-55 | Building a node succeeds iff every input and output spec validates; otherwise it throws the 'global' TypeError without touching the vault. Every named spec becomes a fresh port bound to the node under its name, in key order. A node without an id has its data as given. A node with an id gets a vault binding, and the stored vault value overwrites same-named data keys. |
| Nodes.Node.WithPorts | app/Node/index.js:16-44 | The part of the constructor before the vault succeeds iff every input and output spec validates. The new node then has its name, id and data, no flow and no vault. Its registries list the spec names in order, each bound to a fresh port built from its own spec. |
| Nodes.Node.BindVault | app/Node/index.js:46-53 | A node with an id gets a vault view onto the main vault, which is loaded from disk when not yet cached. The stored entry for the id is merged into the node's data, winning on shared keys. Name, id, flow and ports are unchanged. |
| Nodes.Node.AddNext | app/Node/index.js:32-36 | One round of the constructor's port loop registers the next spec's port after the earlier ones, or stops when the spec is invalid. |
| Nodes.Node.AddPorts | app/Node/index.js:30-44 | The constructor's port loop succeeds iff every spec validates. It then registers the ports in spec order, each built from its own spec and bound to the node. |
| Nodes.Node.AddInput | app/Node/index.js:265-277 | A port of the right kind is bound as is. Anything else first goes through the input constructor. The result is named `name`, bound to this node and registered under `name`, replacing any earlier input of that name; other names are unchanged and `getInputByName(name)` returns it. An invalid raw spec throws and changes nothing. |
| Nodes.Node.AddOutput | app/Node/index.js:285-297 | The same for outputs: bound, named, registered under `name` with replacement, and returned by `getOutputByName(name)`. Inputs are unchanged. |
| Nodes.Node.Adopt | app/Node/index.js:267-269 | A port of the right kind is used as is. Anything else goes through the port constructor: this succeeds iff its spec validates, and gives a fresh port without connectors whose settings come from the spec, or from the other-kind port that was passed. |
| Nodes.Node.AddPort | app/Node/index.js:265-297 | The shared contract of `addInput`/`addOutput`: the registry of the given direction gains or replaces exactly the entry `name`, and the other registry is unchanged. |
| Nodes.Node.GetInputs | app/Node/index.js:303-311 | Lists exactly the registered inputs, in registration order. |
| Nodes.Node.GetOutputs | app/Node/index.js:317-325 | Lists exactly the registered outputs, in registration order. |
| Nodes.Node.GetInputByName | app/Node/index.js:332-334 | Finds a port iff an input is registered under the name, and it is that input. |
| Nodes.Node.GetOutputByName | app/Node/index.js:341-343 | Finds a port iff an output is registered under the name, and it is that output. |
| Nodes.Node.HasConnectedInputsOfType | app/Node/index.js:585-587 | True iff some registered input of exactly this type has a connector. |
| Nodes.Node.AddProgressBar | app/Node/index.js:354-381 | A missing status throws before an id is drawn. Otherwise a fresh id is drawn; a primitive status throws when stamped. The status sent carries the new id and a start date (now, unless one was given). Exactly one message is relayed, only while connected, and the new id is returned. |
| Nodes.ProgressStamp | app/Node/index.js:360-364 | The stamped status has the new `_id` and keeps a given start date, or gets the current time when it had none. Every other property is unchanged. |
| Nodes.Node.UpdateProgressBarById | app/Node/index.js:399-422 | Throws unless both the id and the status are given. Otherwise it relays exactly one message, only while connected, carrying only the id and the percentage. |
| Nodes.Node.UpdateStatusById | app/Node/index.js:425-449 | Throws unless both the id and the status are given. Otherwise it relays exactly one message, only while connected, carrying the id, message and color. |
| Nodes.Node.AddStatus | app/Node/index.js:452-474 | A missing status throws before an id is drawn. Otherwise the status is stamped with a fresh id, relayed once while connected, and the id is returned. |
| Nodes.Node.RemoveStatusById | app/Node/index.js:476-502 | Throws without an id. Otherwise it relays exactly one message, only while connected, carrying the id and the timeout. |
| Nodes.Node.RemoveAllStatuses | app/Node/index.js:505-518 | Relays exactly one message, only while connected. |
| Nodes.Node.SetTracker | app/Node/index.js:521-539 | Throws without a status. Otherwise it relays the status unchanged, once, only while connected. |
| Nodes.Node.Error | app/Node/index.js:553-578 | Throws unless a state is given or the error already carries one; `undefined`/`null` throw a TypeError instead. A non-Error is wrapped in an Error with its string form as message, which drops a state it carried. The given state and this node are attached, so the reported error has a state iff one was given or the original was an Error. A red tracker for 7000 ms is relayed, and `error` is emitted once on the node's flow. A node without a flow throws while building the tracker and emits nothing. |
| Nodes.Node.Fail | app/Node/index.js:541-551 | Only a string is accepted. Anything else throws before any message or event, and a string is reported as `error()` reports it. |
| Nodes.CarriedState | app/Node/index.js:555 | `err.state` is the state an Error carries, or one set on an object or array. Other values carry none. |
| Nodes.Reported | app/Node/index.js:555-566 | The reported error is always an Error bound to the node. It keeps the message of an Error, or takes the string form of any other value. The given state wins over the error's own. Without a given state, a wrapped non-Error has none, because the new Error does not copy it. |
| Nodes.Tracker | app/Node/index.js:568-572 | The tracker is truthy and carries the message, color red and timeout 7000. |
| Nodes.NodeVault.constructor | app/Node/index.js:851-853 | The node's vault is bound to its node and the process vault. |
| Nodes.NodeVault.Get | app/Node/index.js:863-865 | Reads the node's entry from the process vault. |
| Nodes.NodeVault.Set | app/Node/index.js:855-861 | Merges the object into the node's data, overwriting same-named keys. It stores the object as the node's vault entry, leaving every other node field unchanged. |
| Vault.MainVault.constructor | app/Node/index.js:782 | Nothing is loaded until first use. |
| Vault.MainVault.Init | app/Node/index.js:791-807 | A missing file is created empty. The in-memory document becomes the file's contents. |
| Vault.MainVault.Save | app/Node/index.js:809-817 | The file becomes the in-memory document. |
| Vault.MainVault.Get | app/Node/index.js:819-831 | Without an id, returns `undefined` and touches nothing. Otherwise it loads the document on first use only and returns the node's entry, `undefined` when there is none. |
| Vault.MainVault.Set | app/Node/index.js:833-845 | Without an id, does nothing. Otherwise it reloads the file and writes back a document in which the node's entry is the object and every other entry is what the file held. |
| Vault.Stored | app/Node/index.js:842 | After a store, reading the same id gives the object; reading any other id gives what it gave before. |
| Vault.Loaded | app/Node/index.js:793-805 | A missing file reads as `{}`, an existing one as its contents. |
| Ipc.Channel.constructor | app/Node/index.js:384-390 | A channel starts with nothing sent. |
| Ipc.Channel.Send | app/Node/index.js:384-390 | A message is delivered exactly when the process is connected. A detached process sends nothing. |
| Fanin.AggregateAppend | app/Node/index.js:729-734 | Folding the callbacks of two batches gives the two results concatenated. |
| Fanin.AggregateOrderInsensitive | app/Node/index.js:714-741 | Any two arrival orders of the same callback values give results that are permutations of each other. |
| Fanin.AggregateLength | app/Node/index.js:729-734 | The result's length is the sum of the contributions: 0 for `undefined`, an array's length, 1 for anything else. |
| Fanin.AggregateOfScalars | app/Node/index.js:729-734 | When no value is `undefined` or an array, the result is the values themselves in arrival order. |
| Fanin.ArrivalsComplete | app/Node/index.js:737-739 | With each origin calling back at most once, there are never more callbacks than connectors. When the counts are equal, every connector has answered. |
| Registries.Registry.Put | app/TypeDef/index.js:27 | Assigning a name keeps the registry consistent: the name maps to the value and every other name keeps its entry. A new name is appended to the key order; an existing one keeps its place. |
| Registries.Registry.PutNext | app/Node/index.js:32-36 | Registering distinct names one by one keeps the earlier entries and extends the key order by exactly the new name. |
| Registries.Registry.Values | app/Node/index.js:303-311 | The entries are listed in key order, one per name. |
| Supervision.Worker.constructor | child.js:156-161 | At start-up there is no flow, and `init` reaches the master only when the process is connected. |
| Supervision.Worker.StopCurrent | child.js:97-99 | Stops the current flow if there is one, and does nothing otherwise. |
| Supervision.Worker.Abort | child.js:86-101 | Sends `stop` with the error while connected, then stops the current flow if there is one. |
| Supervision.Worker.OnUnhandledRejection | child.js:8-24 | Reports the reason with `stop` while connected and stops the current flow if one exists. The flow slot is unchanged. |
| Supervision.Worker.RequireNode | child.js:132-154 | Loading succeeds iff the code yields a truthy export. A throwing load sends `stop` with the error while connected and stops the current flow. A falsy export does neither. |
| Supervision.Worker.ResolveNodes | child.js:39-61 | Each distinct node name is loaded once, in order of first appearance. The names registered are exactly those whose code loads, each once. One `stop` is sent per throwing load. |
| Supervision.Worker.ResolveOne | child.js:44-58 | Resolving one more new name extends what was registered, sent and called by exactly that name's outcome. |
| Supervision.Worker.ResolveAt | child.js:43-59 | One iteration of the resolving loop keeps the loop state: the names seen are the distinct names of the prefix, in order of first appearance. What was registered, sent and called is exactly what resolving those names in that order produces. The flow slot and the connection are unchanged. |
| Supervision.Worker.HandleStart | child.js:31-103 | The `start` handler: node resolution as above, followed by the chain. The chain sends `started` or `stop` with its error. A failure in `init()` stops the previous flow and keeps the slot. Otherwise the slot holds a new flow that was initialised, then directed or started. |
| Supervision.Worker.RunChain | child.js:63-101 | The chain creates a flow only after `init()` resolves. A truthy `directNodes` runs `direct`, anything else `start`. It sends `started` only after that resolves. Any rejection sends `stop` with its error and stops the flow the slot holds at that moment. |
| Supervision.Worker.HandleStop | child.js:105-111 | Stops the flow if one exists and does nothing otherwise. |
| Supervision.Worker.HandleDirectNodes | child.js:113-119 | Directs the flow if one exists and does nothing otherwise. |
| Supervision.Worker.HandleMessage | child.js:27-123 | Dispatches on the method. `stop` and `directNodes` never send and never replace the flow. Unknown methods change nothing. `start` has HandleStart's effect: the same registrations and messages, the same flow slot and flow count, and the same `flow.stop()`, `initJson`, `start` and `direct` calls. |
| Supervision.Loaded | child.js:53-58 | There are never more registrations than names. |
| Supervision.LoadedSpec | child.js:39-61 | A name is registered iff it appears in the message and its code loads. With de-duplicated names, none is registered twice. |
| Supervision.LoadStops | child.js:132-154 | Failed loads send only `stop` messages, never `started`, and at most one per name. |
| Supervision.LoadStopsReport | child.js:132-154 | Every name whose code throws while loading is reported with a `stop` carrying that error. |
| Supervision.FailedLoadStillStarts | child.js:50-85 | A throwing load only skips that node. Its `stop` is sent, and when `init`, `initJson` and the run then succeed, `started` is still sent, last. |
| Supervision.StartedOnlyOnSuccess | child.js:76-101 | Given load reports without `started`, a `started` is among the messages iff `init()` and the run both succeed. Each failure path sends exactly one `stop` with its own error. |
| Supervision.FailedChainStopsFlow | child.js:66-99 | Once a new flow exists, it is initialised first and then directed or started. It is stopped last iff the chain failed. |
| Supervision.StopCall | child.js:20-22 | `flow.stop()` is called iff a flow exists. |
| Supervision.StopCalls | child.js:147-149 | Repeated failures stop the current flow once per failure, and never when there is no flow. |
| Supervision.Delivered | child.js:11 | A connected worker delivers everything it sends; a detached one delivers nothing. |
| TypeDefs.NewTypeDef | app/TypeDef/index.js:7-17 | A falsy argument throws 'Missing object argument'. A truthy one without a truthy name throws 'Missing name property'. Otherwise the definition carries exactly the object's fields and a truthy name. |
| TypeDefs.Admit | app/TypeDef/index.js:23-26 | An existing definition is taken as is. Anything else goes through the constructor. |
| TypeDefs.AdmitKeepsName | app/TypeDef/index.js:23-27 | A plain object is stored under its own name. |
| TypeDefs.AddReplaces | app/TypeDef/index.js:27 | Adding two definitions of the same name leaves only the later one. |
| TypeDefs.TypeDefRegistry.constructor | app/TypeDef/index.js:4 | The registry starts empty. |
| TypeDefs.TypeDefRegistry.GetAll | app/TypeDef/index.js:19-21 | Returns the current registry: the same entries in the same order. |
| TypeDefs.TypeDefRegistry.ToJson | app/TypeDef/index.js:30-32 | Returns the same registry as `getAll`. |
| TypeDefs.TypeDefRegistry.Add | app/TypeDef/index.js:23-28 | An invalid plain object throws and leaves the registry unchanged. Otherwise the definition is stored under its name, replacing an earlier one, and every other name keeps its entry. A new name is appended to the key order that `getAll` and `toJSON` expose; a replaced one keeps its place. |
| Views.NormalizeViewName | editor/js/view.js:5-9 | A view name always starts with a slash. A name that already does is unchanged; any other gets one slash in front. |
| Views.NormalizeIdempotent | editor/js/view.js:5-9 | Normalising twice is normalising once. |
| Views.Split | editor/js/view.js:100 | Splitting on slashes gives at least one piece, and no piece contains a slash. |
| Views.JoinSplit | editor/js/view.js:100 | Joining the pieces of a split with slashes gives the string back. |
| Views.SplitJoin | editor/js/view.js:100 | Splitting a join of slash-free pieces gives the pieces back. |
| Views.SplitSlashFree | editor/js/view.js:100 | A string without a slash splits into itself. |
| Views.SplitAfter | editor/js/view.js:100 | Appending a slash and a slash-free piece adds exactly that piece. |
| Views.SplitLast | editor/js/view.js:101 | The last piece is empty iff the string is empty or ends with a slash. |
| Views.DropTrailingSlash | editor/js/view.js:101-103 | Removing a trailing slash leaves a prefix of the string at most one character shorter. |
| Views.SplitDropEmpty | editor/js/view.js:100-103 | When the last piece is empty, the other pieces join to the string without its final slash. The empty string splits into one empty piece. |
| Views.SplitPath | editor/js/view.js:98-106 | `splitPath` gives slash-free pieces that join back to the path without one trailing slash. Only the empty path gives no piece. |
| Views.SplitPathUnique | editor/js/view.js:98-106 | Those three properties determine `splitPath`'s result: any list of pieces with them is that result. |
| Views.JoinPrefix | editor/js/view.js:135 | Joining the first k of several pieces, followed by a slash, gives a prefix of the whole join. |
| Views.JoinSlice | editor/js/view.js:135 | Joining `slice(0, n)` of slash-free pieces gives the whole join when nothing is cut. Otherwise a slash follows it in the whole join. A non-empty slice splits back into itself. |
| Views.StripHash | editor/js/view.js:120-123 | The result has no '#'. It is the prefix of the path that stops at the first '#', or the whole path when there is none. |
| Views.Slice | editor/js/view.js:135 | `slice(0, n)` is the first n pieces, clamped to the length. |
| Views.Route | editor/js/view.js:120-132 | A view is chosen iff the hash-free path's pieces start with the root's pieces. Which name is chosen is stated by RoutePieces and RouteName. |
| Views.RouteName | editor/js/view.js:120-135 | The view name is a prefix of the hash-free path. With at most root length + 1 pieces it is the whole path without a trailing slash. With more, it is cut just before a slash. |
| Views.RoutePieces | editor/js/view.js:125-135 | The view name's pieces are exactly the first (root length + 1) pieces of the hash-free path: the root's pieces followed by at most one more. A path with no pieces gives the empty name. |
| Views.GetParams | editor/js/view.js:171-202 | With no query string the parameters are `{}`. Any query string makes the call throw. |
| Views.View.constructor | editor/js/view.js:3-18 | The view's name is the normalised name. Missing properties become `{}`. |
| Views.ViewHolder.constructor | editor/js/view.js:88-96 | The root pieces are `splitPath` of the root path. |
| Views.ViewHolder.PurgeChildren | editor/js/view.js:211-218 | Emits `purge` once and leaves no child. |
| Views.ViewHolder.MatchesRoot | editor/js/view.js:125-132 | Passes iff the path's pieces start with the root's pieces. |
| Views.ViewHolder.ResolveView | editor/js/view.js:118-135 | Stripping the hash, splitting, checking the root and joining the leading pieces computes Route. |
| Views.ViewHolder.Show | editor/js/view.js:136-150 | A query string throws before anything is rendered. Otherwise exactly one view, with the normalised name and `{}` parameters, becomes the only child. Then `render`, and `load` or `error` as `init()` settles, are emitted. |
| Views.ViewHolder.Navigate | editor/js/view.js:108-152 | The path is always pushed onto the history. With `nonav` nothing else changes. Otherwise the holder is purged. A path outside the root renders nothing. A path inside it renders exactly one view, named by Route, as the only child. Then `load` is emitted with the hash-free path, or `error` when the view's init fails. A query string throws after the purge. |
| Views.ViewHolder.LoadNav | editor/js/view.js:154-165 | Refuses with 'already there', changing nothing, when the location has as many pieces as the root. Otherwise it behaves as `navigate` on the location with its hash: pushed onto the history, purged, then nothing rendered outside the root, a throw for a query string, or the routed view rendered with `load` or `error`. |
| Views.ViewHolder.RemoveView | editor/js/view.js:220-236 | Reports success iff some child is the view's element. Only the first such child is removed; the others stay in order. |
| Editor.IsInputElement | editor/js/xibleEditor.js:1386-1398 | A missing element counts as an input element. Otherwise it is one iff it has class 'content' or is an INPUT, BUTTON, SELECT or TEXTAREA. |
| Editor.ToggleTable | editor/js/xibleEditor.js:614-656 | The result for every event, one clause per row of the mouse-event table; together the clauses cover every input. The middle button changes nothing. A plain mousedown on an unselected object selects only it; with ctrl, or on a selected object, mousedown changes nothing. Without a drag, ctrl+mouseup adds an unselected object or removes a selected one, and plain mouseup selects only a selected object and ignores an unselected one. A mouseup after a drag, or another event, changes nothing. The selection stays free of duplicates in every row. |
| Editor.XibleEditor.ToggleSelectionOnMouseEvent | editor/js/xibleEditor.js:614-656 | The new selection is the one the table gives. The flow's nodes and connectors are untouched. |
| Editor.XibleEditor.Select | editor/js/xibleEditor.js:662-673 | Appends the object only when it is absent, so the selection stays free of duplicates. |
| Editor.XibleEditor.Deselect | editor/js/xibleEditor.js:587-606 | With an object, removes that object if selected and keeps the others in order. Without one, empties the selection. |
| Editor.XibleEditor.DeleteNode | editor/js/xibleEditor.js:468-484 | The node leaves the flow's node list and the selection, where present. Everything else stays in order, and connectors are untouched. |
| Editor.XibleEditor.DeleteConnector | editor/js/xibleEditor.js:490-506 | The connector leaves the flow's connector list and the selection, where present. Everything else stays in order, and nodes are untouched. |
| Editor.XibleEditor.AddNode | editor/js/xibleEditor.js:411-425 | An input whose type is among the loaded flow's global output types becomes global. Every other input, and the node otherwise, is untouched. |
| Editor.GlobalTypesSpec | editor/js/xibleEditor.js:413-419 | A type is among the global types iff some node of the flow has a global output of that type. |
| Editor.OutputTypesSpec | editor/js/xibleEditor.js:415-417 | A type is among one node's global types iff one of its global outputs has that type. |
| Editor.GlobalFrom | editor/js/xibleEditor.js:173-175 | Only an input of the output's type without connectors takes the output's flag. Nothing but the flag ever changes. |
| Editor.SetGlobalOnInputs | editor/js/xibleEditor.js:171-177 | Every input of one node is updated by that rule, in place and in order. |
| Editor.SetGlobalFromOutput | editor/js/xibleEditor.js:167-181 | Over the whole flow, only inputs of the output's type without connectors take its `global` flag. Node ids and outputs are untouched. |
| Duplication.CopiedIds | editor/js/xibleEditor.js:1183-1193 | The copied ids are exactly the ids of the selected nodes. |
| Duplication.NodeCopies | editor/js/xibleEditor.js:1183-1193 | The first pass copies exactly the selected nodes and nothing else. |
| Duplication.ConnectorsFold | editor/js/xibleEditor.js:1211-1225 | Over one output, every connector into a selected node is copied with both ends on copies. Earlier copies and keys are kept. |
| Duplication.OutputsFold | editor/js/xibleEditor.js:1204-1227 | Over one node, every output is recorded as processed once. Only inner copies are added. |
| Duplication.InnerFold | editor/js/xibleEditor.js:1198-1229 | The connector pass adds only copies with both ends on copies. It records every output of a selected node as processed, each once. |
| Duplication.EdgeCopy | editor/js/xibleEditor.js:1243-1250 | A connector's copy moves each end to the copy of its node when that node is selected. Otherwise the end stays on the original port. For a connector that does not join two selected nodes, at least one end stays on an original port. |
| Duplication.EdgeFold | editor/js/xibleEditor.js:1233-1255 | The last pass adds a copy of every selected connector that no inner copy covered and that does not join two selected nodes, and nothing else. |
| Duplication.OutputsFoldCopies | editor/js/xibleEditor.js:1204-1227 | Every connector of a not yet processed output that leads into a selected node is copied. |
| Duplication.InnerFoldCopies | editor/js/xibleEditor.js:1198-1229 | When output ids are distinct, every connector between selected nodes is copied. |
| Duplication.DuplicateNodes | editor/js/xibleEditor.js:1183-1193 | The result starts with the node copies in selection order. It has a copy of a node iff that node is selected. |
| Duplication.ConnectorsFoldMade | editor/js/xibleEditor.js:1211-1225 | Over one output, the inner loop appends exactly one copy per connector into a selected node, in connector order, and nothing else. |
| Duplication.OutputsFoldMade | editor/js/xibleEditor.js:1204-1227 | Over one node whose output ids are distinct and not yet processed, the middle loop appends exactly the connector copies of every output, in output order. |
| Duplication.InnerFoldMade | editor/js/xibleEditor.js:1198-1229 | When output ids are distinct and unprocessed, the connector pass appends exactly one copy per connector between selected nodes, in traversal order, and nothing else. |
| Duplication.InnerCopiesSound | editor/js/xibleEditor.js:1198-1229 | Every copy in the traversal-order list is the copy of a connector from a selected node's output to a selected node. |
| Duplication.DuplicateInner | editor/js/xibleEditor.js:1183-1229 | When output ids are distinct, the result starts with the node copies followed by exactly one copy of each connector between selected nodes, in traversal order. So every such connector is copied with both ends remapped onto the copies. |
| Duplication.InnerCopiesOnly | editor/js/xibleEditor.js:1196-1255 | When output ids are distinct, every copy in the result with both ends on copies is the copy of a connector between selected nodes. |
| Duplication.InnerPassShape | editor/js/xibleEditor.js:1183-1229 | The first two passes make only node copies and connector copies with both ends on copies. |
| Duplication.NoKeptEndBeforeLastPass | editor/js/xibleEditor.js:1183-1229 | Before the last pass, no copy leaves an end on an original port. |
| Duplication.DuplicateEdges | editor/js/xibleEditor.js:1232-1255 | A selected connector is copied in the last pass iff no inner copy covered it and it does not join two selected nodes. Every copy with an end on an original port is such a copy. |
| Duplication.ConnectorsKeysSound | editor/js/xibleEditor.js:1211-1215 | Every key the inner loop records is the key of one of its connectors into a selected node. |
| Duplication.OutputsKeysSound | editor/js/xibleEditor.js:1204-1227 | Every key the middle loop records is the key of a connector of one of the node's outputs into a selected node. |
| Duplication.InnerKeysSound | editor/js/xibleEditor.js:1198-1229 | Every key the connector pass records is the key of a connector from a selected node's output to a selected node. |
| Duplication.DuplicateEdgesByNodes | editor/js/xibleEditor.js:1232-1255 | In a well-formed flow, a selected connector is copied in the last pass iff its two nodes are not both selected, and every copy with an end on an original port is the copy of such a connector. |
| Duplication.CopyNodes | editor/js/xibleEditor.js:1183-1193 | The node loop computes the node copies in selection order, and the set of copied node ids. |
| Duplication.CopyInner | editor/js/xibleEditor.js:1196-1229 | The outer connector loop computes the inner-connector fold over the selection. |
| Duplication.CopyEdges | editor/js/xibleEditor.js:1232-1255 | The last loop computes the edge fold over the selection, appended to the copies made so far. |
| Duplication.CopyConnectors | editor/js/xibleEditor.js:1211-1225 | The inner loop computes the per-output fold. |
| Duplication.CopyOutputs | editor/js/xibleEditor.js:1204-1227 | The middle loop skips processed outputs and computes the per-node fold. |
| Duplication.Duplicate | editor/js/xibleEditor.js:1178-1259 | `duplicate(selection)` returns exactly the result characterised by DuplicateNodes, DuplicateInner, InnerCopiesOnly and DuplicateEdges: node copies, then each inner connector copied once, then the boundary connectors. |
| Lists.IndexOf | editor/js/xibleEditor.js:1206 | `indexOf` gives -1 iff the element is absent, and otherwise the position of its first occurrence. |
| Lists.RemoveFirst | editor/js/xibleEditor.js:591-594 | Finding and splicing removes one occurrence, if any, and nothing else. A duplicate-free list stays duplicate-free and loses the element entirely. |
| Lists.FirstOccurrences | child.js:39-48 | The names visited are free of duplicates, and they are exactly the names of the message. |
| Js.NatToStringInjective | app/Node/index.js:50-52 | Different array indices have different decimal keys. |
| Js.Indexed | app/Node/index.js:50-52 | Index keys `"0"`, `"1"`, ... map to the elements at those positions, and there are no other keys. |
| Js.OwnProps | app/Node/index.js:50-52 | The own enumerable properties of a source: an object's properties; each index of an array or string under its decimal key, with its element or one-character string; nothing for other values. |
| Js.Assign | app/Node/index.js:50-52 | `Object.assign` keeps every key of the target, adds the source's own keys (including an array's or string's index keys), and lets the source win on shared keys. |
| Js.SetProp | app/Node/index.js:458 | Setting a property on an object changes that property only. |

## Left out

- **Concurrency.** The asynchronous interleaving of `getValues` callbacks is
  a sequence of arrivals. Promise scheduling is not modelled. The start chain
  of the worker runs to completion in one call; its foreign steps are given
  as outcomes (`Supervision.Environment`).
- Nodes.Port.GetValues: the event log lists every `trigger` before any
  `triggerdone`. An origin that calls back synchronously inside its
  `trigger` handler emits its `triggerdone`, and may resolve the promise,
  during the emission loop. That interleaving of the log is not modelled.
- **Exactly-once callbacks.** The rule that each origin calls back at most
  once is an assumption about the origins (`Fanin.WellFormed`). What is
  proved is that, under it, resolution happens exactly when every connector
  has answered.
- **Numbers.** Numbers are unbounded integers, not IEEE doubles.
- **Key order.** JavaScript's key order for integer-like keys is
  approximated by insertion order (`Registries.Registry`).
- **`getValues` errors.** `getValues` throwing synchronously on a missing
  state and its promise rejecting on a null flow are both `Rejected`.
- **Node discovery** (`getFiles`, `getStructures`, `initFromPath`), the
  Express routes and the `toJSON` serialisation of ports are I/O or
  presentation and are not modelled.
- **Vault.** The vault file is an in-memory field. The `vault.path`
  configuration lookup, file-system errors and JSON parse errors are not
  modelled.
- **Node construction hook.** The constructor's `constructorFunction` hook
  and `require` run foreign code. The hook is not modelled. `require` is
  modelled as a given outcome per path.
- **Ids and states.** `XIBLE.generateObjectId` is a counter that issues
  truthy ids never issued before. `FlowState.split` returns a fresh token,
  and the rest of FlowState is not part of this model.
- **Console output** (`console.error`, debug logging) is not modelled.
- Nodes.Node.HasConnectedInputsOfType: the source calls `.some` on the
  name-keyed input object, which throws. The model states the evident
  intent over `getInputs()` instead.
- **`removeProgressBarById`** forwards to `removeStatusById` and is covered
  by Nodes.Node.RemoveStatusById.
- **Status objects.** The caller's status object is mutated by
  `addStatus`/`addProgressBar`. The model tracks the stamped copy that is
  sent, not the caller's alias.
- Nodes.Node.Error: `error()` sets `state` and `node` on the caller's Error
  object in place (app/Node/index.js:562-565), also when building the
  tracker then throws. The model returns the reported error as a new value
  and does not track the caller's alias.
- TypeDefs.TypeDefRegistry.GetAll: returns the registry's contents as a
  value. The source hands out its live `typeDefs` object, so a caller's
  later changes to it change the registry; that aliasing is not modelled.
  The same holds for TypeDefs.TypeDefRegistry.ToJson.
- Nodes.Node.FromSpec: requires distinct spec names, which a JavaScript
  object's keys always are.
- Supervision.Worker.HandleStart: a node whose code throws while loading is
  not fatal to the start. The handler sends `stop` for it and goes on; the
  chain can still send `started` afterwards (FailedLoadStillStarts). Whether
  it does depends on the foreign `initJson`, given as an outcome. The model
  keeps the source's behaviour and does not make a failed load end the start.
- Supervision.Worker.OnUnhandledRejection: the handler reports the reason and
  stops the flow but does not end the process, as child.js:8-24 is written.
  No termination is modelled.
- Supervision.Worker.HandleStart: requires that the message lists a path for
  every node name it uses. A name missing from `message.nodes` makes the
  source throw a TypeError outside the promise chain, which is not modelled.
- **Editor values.** Editor nodes, ports and connectors are values compared
  by contents, standing for object identity. DOM construction, zoom, pan,
  dragging, area selection, keyboard and mouse listeners,
  `webSocketMessageHandler` and `getFlows` are not modelled.
- **`getFlowById`** calls `.find` on an object and is not part of this
  model.
- **Node copies.** `node.duplicate()` is foreign. A copy is named by the
  node it copies, and a port on a copy by that node and the port's name. A
  connector copy's `new XibleEditorConnector` is its pair of ends.
- Duplication.DuplicateInner: proved under the assumption that the outputs
  of the selected nodes have distinct ids, and so are InnerCopiesOnly and
  InnerFoldMade. With shared ids the source skips an output's connectors
  after the first.
- Duplication.DuplicateEdgesByNodes: proved for a well-formed flow, where a
  connector hangs from an output of its origin node and equal connector
  keys name the same end nodes (port ids are unique). DuplicateEdges states
  the last pass without these assumptions, in terms of the keys.
- **`setGlobal`** on an editor input is a field update. Its DOM effects are
  not modelled.
- Editor.XibleEditor.AddNode: models only the global-input part. Appending
  the node's element and the `beforeAppend`/`append` events are DOM effects
  and are not modelled.
- **`View.init`** (XHR and script loading) is reduced to how it settles,
  given as a parameter of `Navigate`. The `window.location` values are
  parameters of `LoadNav`.
- Views.GetParams: only the argument-less call that `navigate` makes is
  modelled. Because any query string makes it throw, `params` is never
  reached.
- **Plugins.** `editor/views/settings/general.js` and the `glow.light`
  nodes are not part of this model.
