# dash-devices shared-callback engine in Dafny

This project models the shared-callback engine of the `Dash` object in
`dash/dash.py` (the "dash-devices" variant of Dash, which talks to its browser
clients over a websocket). It covers:

- the `Services` bit flags and the tests the engine applies to a callback's service value;
- the callback registry (`callback_map`, `_callback_list`) and the synthetic `_none.<n>` outputs;
- the structural queries over the registry and the live layout table (`_valid_callback_ids`,
  `_callback_compare`, `_callback_intersect`, `_callback_diff`);
- the synthesis of an invocation body from stored args or layout values (`_callback_body`);
- the way `add_context` reads a callback's return value;
- `dispatch`, which answers a request, broadcasts the input and output changes of a shared
  callback and chains to the shared callbacks they reach (with `push_mods_coro`,
  `share_shared_mods`, `_dispatch_chain`, `_dispatch_callbacks`);
- the layout table (`handle_layout`, `mod_layout`);
- the server-side bootstrap `_initial_callbacks`, a worklist loop that peels the "root" pending
  callbacks until every pending callback has args.

Files:

- `common.dfy`: `Option` and `Result`.
- `services.dfy`: the flags, `shared_test` and the other service tests.
- `props.dfy`: values, dependencies, body entries, `"id.property"` keys and mods dictionaries.
- `returns.dfy`: the return-value reading of `add_context` as a tagged union.
- `callbacks.dfy`: registry entries, invocation bodies and the input mods of `dispatch`.
- `transport.dfy`: the socket as an append-only log of `(kind, payload, target)` events.
- `queries.dfy`: the registry queries and the feeding relation as specification functions.
- `layout.dfy`: the `layout_components` table.
- `engine.dfy`: the class `Dash`, whose methods update the registry, the args, the layout,
  the initial-callbacks flag and the log in place.

The coroutines call each other recursively: `dispatch` → `push_mods_coro` / `share_shared_mods`
→ `mod_layout` → `handle_layout` → `_initial_callbacks` → `_dispatch_callbacks` → `dispatch`.
Every such method takes a `fuel` bound on the depth of nested dispatches. Running out of it raises
`FuelExhausted`.

Every engine method keeps the class invariant `Valid()`. Every coroutine also satisfies
`Evolved()`: the registry is fixed, args and layout entries only accumulate, the log is only
appended to, and the initial-callbacks flag is never cleared. Every raised error satisfies
`ErrorOk`: a `ChainNotShared` error names only non-shared callbacks, and a `Diverges` error
names a pending set that is not acyclic.

Three behaviours of the code are easy to miss, and the model keeps them:

- A shared callback's args are written before the user function runs (dash/dash.py:1139-1141),
  so a callback that returns `no_update` still has its args replaced; `Engine.Dash.Dispatch`
  states this.
- The shown code has no duplicate-output check. Registering the same output again replaces the
  entry in place (`Engine.Dash.InsertCallback`).
- The input mods of a shared dispatch are sent once per changed key, each time passing the dict
  built so far (dash/dash.py:1248-1253), not once at the end.

Helpers from `dash/_utils.py` and `dash/_validate.py` are not part of this model. The model
states explicitly what it takes them to do:

- `intersect_ids`: some input has the id and property of some prop (`Props.IntersectIds`).
- `create_callback_id`: `"id.prop"`, or `"..a.b...c.d.."` for a list (`Engine.CallbackId`).
- `list_to_mods`: later directives win; anything but `Output` directives is malformed (`Returns.AltMods`).
- `inputs_to_vals`: each entry's value (`Callbacks.ArgValues`).
- `find_prop_value`: the first matching entry's value (`Callbacks.FindPropValue`).
- `validate_multi_return`: accepts a list with one value per declared output (`Returns.Interpret`).
- `flatten_layout`: an opaque function of the class (`Engine.Dash.flattenLayout`).
- `validate_callback`: accepts every registration (`Engine.Dash.InsertCallback`).

## Model

| member | source | states |
|---|---|---|
| Services.FlagsAreDistinctPowersOfTwo | dash/dash.py:120-132 | each service flag is `1 << k` for its own position k in 0..6, and two different flags never have the same value |
| Services.PresetFlags | dash/dash.py:134-146 | SHARED is 125, S2 is 33, PUSHER_ALL is 3 and the initial-callback bits are 24; each preset sets exactly the flags listed for it and S0 sets none |
| Services.PresetSharing | dash/dash.py:134-153 | the SHARED preset passes `shared_test`, the initial-callback test and the share-with-others test; S2 and S0 are not shared |
| Services.SharedTest | dash/dash.py:149-153 | `shared_test(None)` is 0 (false); otherwise the result is non-zero exactly when bit `1 << 4` is set, and it is always 0 or SHARED_CALLBACK |
| Services.ShareWithOthers | dash/dash.py:1251 | `service & SHARE_WITH_OTHER_CLIENTS` is non-zero exactly when bit 6 is set |
| Services.InitialTest | dash/dash.py:1400-1401 | `(service & bits) == bits` for SERVER_INITIAL_CALLBACK + SHARED_CALLBACK holds exactly when bits 3 and 4 are both set |
| Props.NoneOutputIdsDistinct | dash/dash.py:1102-1104 | two different counter values never give the same synthetic `_none.<n>` output id, so advancing the counter always yields a fresh id |
| Props.KeyRoundTrip | dash/dash.py:1249 | splitting a key `id + "." + property` built from dot-free parts gives back the id and the property |
| Props.SplitKeyInverse | dash/dash.py:1249 | a changed key unpacks into two parts only when it has exactly one dot, and then it is the key of those two parts; a key without a dot does not unpack |
| Props.PutLookup | dash/dash.py:1195 | writing `mods[id][property]` makes that key read back the new value and leaves every other key's value as it was |
| Props.PutUnique | dash/dash.py:1184-1195 | a mods dict built by writes never holds two entries for the same id and property, and holds only the written change and the old entries |
| Returns.Interpret | dash/dash.py:1160-1198 | a result read as an update always carries at least one change (an update with nothing left prevents instead) |
| Returns.AlternateIgnoresDeclaredOutputs | dash/dash.py:1161-1175 | an `Output` or a list starting with one is read before the declared outputs are looked at: the reading is the same whatever the callback declared, `_none` included, and it is an alternate result or malformed |
| Returns.NoneOutputOnlyAlternates | dash/dash.py:1173-1175 | a callback with a synthetic `_none` output never produces an update; anything but an alternate result prevents the update |
| Returns.SingleOutputUpdate | dash/dash.py:1176-1195 | a single-output callback returning an ordinary value updates exactly its output's id and property with that value |
| Returns.MultiOutputUpdate | dash/dash.py:1179-1198 | a multi-output result prevents the update exactly when every slot is `no_update`; otherwise each change targets a declared output with the value of a non-`no_update` slot, no key appears twice, and every non-`no_update` slot's key holds the last value given for it |
| Returns.SlotsLookup | dash/dash.py:1186-1195 | after the zip over slots and outputs, each key holds the value of the last non-`no_update` slot that targets it |
| Returns.SlotsTargetDeclaredOutputs | dash/dash.py:1186-1195 | every change of the zip comes from a declared output whose slot held that value and was not `no_update`, and keys are unique |
| Returns.SlotsEmpty | dash/dash.py:1185-1198 | the zip writes nothing exactly when every slot is `no_update` |
| Callbacks.FromLayout | dash/dash.py:1348-1357 | body entries are built from the layout exactly when every id is a component, each entry keeping id and property and taking the component's property value, or None when the property is missing |
| Callbacks.OverlayAt | dash/dash.py:1359-1365 | after all changes, each input keeps its id and property and holds the value of the last change that matches it and carries a value, or its base value if there is none |
| Callbacks.HitKeysMembers | dash/dash.py:1361-1364 | one change appends its key `"id.property"` exactly when it matches some body input |
| Callbacks.HitKeysRepeat | dash/dash.py:1361-1364 | one change appends its key `"id.property"` once for every body input it matches (same id and property, and the change carries a value), and nothing else |
| Callbacks.ChangedKeysInOrder | dash/dash.py:1359-1365 | `changedPropIds` is, change by change in the order given, that change's key repeated once per body input it replaces; values written by earlier changes never alter what a later change matches |
| Callbacks.ChangedKeysMembers | dash/dash.py:1359-1365 | `changedPropIds` holds a key exactly when some change carrying a value has that id and property and matches some input of the body |
| Callbacks.ChangedKeysSound | dash/dash.py:1359-1365 | every key in `changedPropIds` is the key of a change that replaced an input |
| Callbacks.ChangedKeysComplete | dash/dash.py:1359-1365 | a change that replaces an input always has its key in `changedPropIds` |
| Callbacks.BuildBodyShape | dash/dash.py:1342-1371 | a body can be built exactly when it can be built without changes, and fails only when there are no args and some input or state id is not a component; the body has the given output and the entry's outputs; its state never depends on the changes; without changes its inputs are the stored args' inputs (or the layout values) and `changedPropIds` is empty |
| Callbacks.InputModsMeaning | dash/dash.py:1246-1250 | the input mods can be built exactly when every changed key unpacks into id and property; they then have unique keys, every entry is a changed key holding the body's value of that input, and every changed key reads back that value |
| Callbacks.InputModsNoChildren | dash/dash.py:1247-1250 | when no changed key names a `children` property, no entry of the input mods writes `children` |
| Transport.ReplyFor | dash/dash.py:1256-1274 | a malformed result leaves the request unanswered; the requester gets the full response exactly for an update of a non-shared callback, with the update's mods, and `{}` otherwise; the reply is never a bare mods dict |
| Queries.ValidIdsMembers | dash/dash.py:1303-1315 | `_valid_callback_ids` returns exactly the callbacks whose service passes the test and whose every input and output id is a component of the layout, in registry order |
| Queries.ValidIdsHas | dash/dash.py:1303-1315 | membership half of the above |
| Queries.ValidIdsInOrder | dash/dash.py:1303-1315 | the result is a subsequence of the registry order |
| Queries.ValidIdsSameKeys | dash/dash.py:1309-1311 | which callbacks are live depends on the layout only through its component ids |
| Queries.SelectMembers | dash/dash.py:1319-1331 | each of the two lists of `_callback_compare` holds exactly the candidates whose inputs pass the test and whose service passes (first list) or fails (second list) the service test, in candidate order; candidates failing the input test are in neither |
| Queries.SelectHas | dash/dash.py:1319-1331 | membership half of the above |
| Queries.SelectInOrder | dash/dash.py:1319-1331 | each list is a subsequence of the candidates |
| Queries.FourWayPartition | dash/dash.py:1333-1339 | over the same candidates and properties, every candidate lands in exactly one of the four lists of `_callback_intersect` and `_callback_diff` |
| Queries.OutputsOfAllMembers | dash/dash.py:1429-1431 | the assembled outputs hold exactly the outputs of the pending callbacks |
| Queries.RootsUnfed | dash/dash.py:1433-1435 | a callback misses every pending output exactly when no pending callback feeds it |
| Queries.RootExists | dash/dash.py:1427-1435 | a non-empty acyclic pending set always has a callback that no pending callback feeds |
| Queries.AcyclicSubset | dash/dash.py:1441-1443 | dropping callbacks from an acyclic pending set keeps it acyclic |
| Queries.ChainTargetsSameKeys | dash/dash.py:1389 | which callbacks a chain reaches depends on the layout only through its component ids, so property writes never change it |
| Queries.SecondCallFindsNothing | dash/dash.py:1410-1425 | once every callback a run found pending has args, a later run over the same components and component ids finds nothing pending |
| Queries.AllDoneNothingPending | dash/dash.py:1402-1425 | when every callback passing the initial test has args, nothing is pending |
| Layout.InsertFirstWinsAt | dash/dash.py:438-443 | after insertion an id is in the table exactly when it was before or some component carries it; an id already present keeps its entry, and a new id takes the properties of the first component carrying it |
| Layout.SetProp | dash/dash.py:446-451 | a property write changes only that property of that component; it is ignored for an unknown id or an empty id or property, and never adds or removes a component |
| Layout.SetPropsFrame | dash/dash.py:454-459 | applying mods keeps the set of component ids, and a component the mods do not name keeps all its properties |
| Layout.SetPropsLookup | dash/dash.py:454-459 | after applying mods, a property of an existing component holds the last value the mods give it, or its old value if they give none |
| Engine.Dash.constructor | dash/dash.py:380-387 | the registry, the callback list, the args and the layout start empty, the counter at 0 and the flag cleared |
| Engine.Dash.InsertCallback | dash/dash.py:975-993 | the entry under the created id holds the inputs, state, outputs and service; a new id is appended to the registry order and an existing one keeps its place; the old args and handler of that id are dropped; one spec is appended to the callback list; nothing else changes |
| Engine.Dash.Callback | dash/dash.py:1098-1215 | a missing service becomes the configured one; a missing output becomes `_none.<n>` for the old counter value, which advances by one, so the new id differs from every earlier synthetic id; the id is registered with the given inputs, state and outputs, its handler installed and its args dropped; a new id is appended to the registry order and an existing one keeps its place; one spec for it is appended to the callback list; other entries, handlers and args, the layout, the log and the flag are untouched |
| Engine.Dash.ValidCallbackIds | dash/dash.py:1303-1315 | the loop returns the specification list: exactly the live callbacks passing the test, in registry order |
| Engine.Dash.CallbackCompare | dash/dash.py:1319-1331 | the candidates default to every live callback; the two lists are exactly the candidates passing the input test, split by the service test |
| Engine.Dash.SelectLoop | dash/dash.py:1325-1330 | the append loop builds both specification lists |
| Engine.Dash.CallbackIntersect | dash/dash.py:1333-1335 | the two lists together are exactly the candidates with an input among the props, shared and non-shared apart |
| Engine.Dash.CallbackDiff | dash/dash.py:1337-1339 | the two lists together are exactly the candidates with no input among the props, split by the service test |
| Engine.Dash.CallbackBody | dash/dash.py:1342-1371 | an unknown output is an error; otherwise the body is built from the stored args or, without args, from the layout (an error when a component is missing), overlaid with the changes, and carries the given output |
| Engine.Dash.OverlayLoop | dash/dash.py:1359-1365 | the nested loops compute the overlaid inputs and `changedPropIds` of the specification |
| Engine.Dash.ApplyLoop | dash/dash.py:1361-1364 | the inner loop applies one change to every input and appends one key per match |
| Engine.Dash.FromLayoutLoop | dash/dash.py:1348-1356 | the loop reads each entry's value from its component, or fails on a missing component |
| Engine.Dash.Dispatch | dash/dash.py:1236-1285 | an unknown output raises with nothing changed; a finished dispatch has run the handler and, for a shared callback, recorded its args; a request gets at most one reply, and exactly the `ReplyFor` payload when the dispatch finishes; a non-shared callback: malformed result raises with nothing changed, no request changes nothing, prevent/update replies once, alternate with a client replies `{}` then notifies that client; a shared prevent only records args and replies `{}`; a shared share-with-others update or alternate is broadcast to all; a shared dispatch from a client broadcasts the input mods to all other clients, and without SHARE_WITH_OTHER_CLIENTS a malformed changed key raises with nothing changed; for a shared update or alternate, unless a `children` write is shared first (a SHARE_WITH_OTHER_CLIENTS callback whose outputs, or whose changed keys when a client dispatches it, name `children`), a non-shared callback the outputs reach, among the callbacks live at the start, makes it raise, and when it finishes every shared callback they reach has args |
| Engine.Dash.DispatchFromClient | dash/dash.py:1246-1285 | a client dispatch of a SHARE_WITH_OTHER_CLIENTS callback: a malformed changed key raises; when it finishes, the input mods were broadcast to all other clients, the handler ran and recorded args, and an update or alternate was broadcast to all; a request gets at most one reply, the `ReplyFor` payload when it finishes; changed keys without `children` keep the component ids, and the chain of outputs without `children` over the layout after the input sharing raises on a reached non-shared callback and, when it finishes, leaves every reached shared callback with args |
| Engine.Dash.Invoke | dash/dash.py:1256-1285 | a missing handler raises with nothing changed; a shared callback with a handler always ends with args, exactly the body's when it prevents; the outcomes of `Engine.Dash.Dispatch` for non-shared, shared prevent and broadcast hold from the state the call starts in, and so does the chain without SHARE_WITH_OTHER_CLIENTS or for outputs without `children`; a request gets at most one reply, the `ReplyFor` payload when it finishes |
| Engine.Dash.Route | dash/dash.py:1256-1285 | for a given reading of the result: malformed raises with nothing changed and never finishes; prevent replies `{}` if asked and changes nothing else; a request gets at most one reply, exactly the `ReplyFor` payload when it finishes; the non-shared replies and pushes as in `dispatch`; a shared share-with-others update or alternate is broadcast to all clients; a shared update or alternate, without SHARE_WITH_OTHER_CLIENTS or with outputs that write no `children`, raises when its outputs reach a non-shared callback, and when it finishes every shared callback they reach has args |
| Engine.Dash.ShareOutputs | dash/dash.py:1277-1285 | with SHARE_WITH_OTHER_CLIENTS the outputs are sent to all clients first; without SHARE_WITH_OTHER_CLIENTS, or when the outputs write no `children`, outputs reaching a non-shared callback raise, and when it finishes every shared callback they reach has args |
| Engine.Dash.PushShared | dash/dash.py:482-483 | the mods are sent to all clients first; without `children` writes, every shared callback they meet has args when it finishes |
| Engine.Dash.ShareInputChanges | dash/dash.py:1246-1253 | a changed key that does not unpack raises; without SHARE_WITH_OTHER_CLIENTS nothing is sent; with it the full input mods are broadcast to every client but the originating one; when no changed key names `children`, the component ids are unchanged |
| Engine.Dash.ShareSharedMods | dash/dash.py:462-465 | the mods are first sent without notification to all clients (or all but one), then applied to the layout; without `children` writes that is the only event and the layout is the mods applied |
| Engine.Dash.PushModsCoro | dash/dash.py:468-492 | with a client: one notifying send to that client and nothing else; without: mods meeting shared and non-shared callbacks raise with nothing changed; mods meeting only shared callbacks are broadcast first and, without `children` writes, every shared callback they meet has args when it finishes; mods meeting none are applied to the layout and sent with notification to all |
| Engine.Dash.ModLayout | dash/dash.py:454-459 | without `children` writes, the layout becomes the mods applied in order and nothing else changes |
| Engine.Dash.HandleLayout | dash/dash.py:435-451 | a plain property write sets that property on a known component and changes nothing else; a subtree write inserts all its components |
| Engine.Dash.InsertComponents | dash/dash.py:438-443 | the layout becomes the first-wins insertion of the components, and every component id is present |
| Engine.Dash.DispatchChain | dash/dash.py:1388-1395 | returns the live shared and non-shared callbacks the mods reach, the latter all non-shared; when it finishes, every reached shared callback has args |
| Engine.Dash.BodiesFor | dash/dash.py:1389-1392 | one body per output, in order, each the specification body of that output, or the error of a body that cannot be built |
| Engine.Dash.DispatchCallbacks | dash/dash.py:1375-1385 | no bodies changes nothing; when all finish, every body's callback has run and a shared one recorded args; no dispatch answers a request |
| Engine.Dash.InitialCallbacks | dash/dash.py:1397-1443 | with the flag set nothing happens; when every initial callback has args only the flag is set; with nothing pending nothing changes; when it finishes every pending callback has args and, with the same component ids, a second call finds nothing pending |
| Engine.Dash.PeelAll | dash/dash.py:1427-1443 | the worklist loop ends with every pending callback given args, or with an error |
| Engine.Dash.PeelRound | dash/dash.py:1427-1443 | a round dispatches exactly the pending callbacks no pending callback feeds; no root raises `Diverges` for this set with nothing changed; otherwise the roots get args and the next set is the old one minus the callbacks that have args, strictly smaller |
| Engine.Dash.PendingRoots | dash/dash.py:1433-1435 | the roots are exactly the pending callbacks no pending callback feeds, and there is one when the pending set is acyclic |
| Engine.Dash.AllInitialHaveArgs | dash/dash.py:1402-1408 | true exactly when every callback passing the initial test has args |
| Engine.Dash.SeedPending | dash/dash.py:1410-1425 | the pending set is exactly the live callbacks passing the initial test, without args, with an input on one of the new components |
| Engine.Dash.WithoutArgs | dash/dash.py:1413-1416 | keeps exactly the candidates passing the initial test that have no args |
| Engine.Dash.PendingLoop | dash/dash.py:1420-1425 | collects exactly the candidates with an input on one of the components |
| Engine.Dash.InputOnComponent | dash/dash.py:1423-1425 | true exactly when some input belongs to the component |
| Engine.Dash.OutputsLoop | dash/dash.py:1429-1431 | concatenates the outputs of the pending callbacks |

## Left out

- The HTTP path of `dispatch` (dash/dash.py:1286-1293), including its error on alternate results: Quart request handling is foreign code.
- `dash/pusher.py`: the websocket handler, the send and receive tasks and `run_coroutine_threadsafe`. They are I/O and concurrency plumbing. The transport is an event log, and `push_mods` is modelled only through `push_mods_coro`.
- The `Alock` and `threading.Lock` of serialized callbacks, and the `handle_layout_lock`: their point is concurrency. `asyncio.gather` is modelled as running the bodies one after another. Every body is dispatched, and the first error is reported.
- The calling context (`g_cc`, `callback_context`) and `call_callback`'s executor: they do not affect the engine's state.
- JSON and Plotly encoding, `fail_callback_output`: foreign libraries.
- User callbacks are total functions from argument values to a return value. A `PreventUpdate` raised by user code is represented by returning `no_update`. Other exceptions from user code are not modelled.
- Pattern-matching (dict) ids and wildcard outputs (nested output lists in the zip of dash/dash.py:1189-1191): the model's ids are strings.
- Clientside callbacks, `callback_connect`, `clients`, index templating, assets and dev tools: not part of the engine.
- Components are values: `setattr` on a component is an update of the table entry. Aliasing between the table and component trees is not modelled.
- The nested-dict grouping of a mods dict is modelled as a flat list of `(id, property, value)` changes with dictionary write semantics, so iteration order may differ from Python's grouped order.
- Engine.Dash.ShareInputChanges: each logged broadcast is a snapshot of the input mods at the moment of the send. The source passes the same dict object to every send and keeps writing to it, and the pusher queues it by reference and serializes it later (dash/pusher.py:50-51, 67-76), so a client may see keys added after its send. That aliasing is not modelled.
- `push_mods_coro` given a list of `Output` directives or a single `Output`: the model takes the mods dict.
- Engine.Dash.Dispatch: the recursion depth is bounded by `fuel` (`FuelExhausted`), so the properties hold for runs within the bound.
- Engine.Dash.Dispatch: the chain of a shared callback is not stated when a `children` write is shared before it (SHARE_WITH_OTHER_CLIENTS with a `children` output, or a client dispatch whose changed keys name `children`). Such a write adds components and runs their initial callbacks first, and the chain then runs on the grown layout.
- Engine.Dash.Invoke: the chain is stated only without SHARE_WITH_OTHER_CLIENTS or for outputs without `children`, for the same reason.
- Engine.Dash.Route: the chain is stated only without SHARE_WITH_OTHER_CLIENTS or for outputs without `children`, for the same reason.
- Engine.Dash.ShareOutputs: the chain is stated only without SHARE_WITH_OTHER_CLIENTS or for mods without `children`, because the broadcast of a `children` write adds components before the chain.
- Engine.Dash.DispatchFromClient: the chain is stated only for outputs without `children`, for the same reason.
- Engine.Dash.PushModsCoro and Engine.Dash.PushShared: the chain after the broadcast is stated only for mods without `children` writes, for the same reason.
- Engine.Dash.InitialCallbacks: where the source loops forever (no root left among the pending callbacks), the model raises `Diverges`. That can only happen on a pending set that is not acyclic.
- Engine.Dash.PeelRound: which callbacks a round dispatches is stated through the roots it returns and the args they receive, not through the events of each nested dispatch.
- Engine.Dash.HandleLayout and Engine.Dash.ModLayout: exact layout and log contents are stated only for mods without `children` writes, because a subtree write runs the initial callbacks, whose effects are stated by Engine.Dash.InitialCallbacks.
