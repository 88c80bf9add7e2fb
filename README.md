# pm2 dnode bridge: a Dafny model

This project models the rules of `lib/server.js` that do not depend on the libraries around it. The file exposes the pm2 process supervisor to a remote peer over a dnode RPC stream.

- **Method table** (`MethodTable`): the fixed allow-list is cut down to the names the supervisor exposes as functions. The two overrides `disconnect` and `launchBus` are then always installed. The `_dnode` back-reference is a getter, not a callable entry.
- **Event-bus proxy** (`EventBus`): the object the `launchBus` override hands to the remote side.
  - It tracks every listener registered through it, per event name and in registration order.
  - When the owning transport ends, it strips those listeners from the raw bus and closes the bus once.
  - The raw bus is a value: a map from event name to listeners, a close counter and a call log.
- **`disconnect` override** (`DisconnectOverride`): the callback is deferred through a timer queue on both paths. The error is re-thrown only when there is no callback to hand it to.
- **Decision rules** (`Decisions`):
  - broken-pipe (`EPIPE`) suppression of socket errors;
  - endpoint selection in `connect` and in `listen`.
- **Session ids** (`SessionId`): ids are built from four random draws and re-rolled until they are not taken.
- **Session** (`Sessions.Session`): the duplex wrapper with its lifecycle fields `destroyed`, `dnode` and `methods`.
  - `_write` and `_read` are guarded.
  - The transport's `end` destroys the session and then fires the bus teardown hooks.
  - The transport's events are re-emitted.
- **Listening server** (`Registry.ListeningServer`): the live sessions, keyed by fresh ids. An entry is inserted on accept and removed on that session's `end`.

Collaborators enter the model as parameters:

- the supervisor is the set of names it exposes as functions;
- the outcome of `pm2.disconnect()` and of `pm2.launchBus` is a parameter;
- the random digits are an oracle of strings;
- `setTimeout` is a queue.

`Params` stands for the output of dnode's argument parser.

## Model

| member | source | states |
|---|---|---|
| MethodTable.Mirror | lib/server.js:164-179 | The map/filter/reduce has exactly the listed names that are callable as keys, each bound to the supervisor function of that name |
| MethodTable.BuildTable | lib/server.js:164-191 | Keys are exactly the callable allow-listed names plus `disconnect` and `launchBus`, whatever the supervisor has. The overrides replace the supervisor's functions and every other entry is the bound supervisor function. `_dnode` is not an entry |
| MethodTable.BackrefNotAllowListed | lib/server.js:12-30 | `_dnode` is not on the allow-list, so the getter never collides with a mirrored entry |
| EventBus.Perform | lib/server.js:76-98 | The raw bus as the proxy uses it, an assumption about that collaborator. Every call is logged and `close` is counted. A listener is attached after the call iff the call attaches it, or it was attached and the call does not detach it. `on` appends |
| EventBus.OnStep | lib/server.js:75-79 | `on(name, cb)` appends `cb` to the end of the name's tracked list, starting an empty one if needed, and leaves every other name alone. The raw bus gains `cb` at the end of the name's list |
| EventBus.OffStep | lib/server.js:81-84 | `off(name)` with the forward corrected to `bus.off`: the whole tracking entry is deleted and the name has no listener left on the raw bus. Other names are untouched |
| EventBus.OffStepAsWritten | lib/server.js:81-84 | `off` as written: the tracking entry is deleted and other names are untouched, but the raw bus only ever gains listeners, because the call goes to `bus.on` |
| EventBus.OnStepAsWritten | lib/server.js:75-79 | `on` as written, with a plain-object dictionary. For a name that is not inherited it is exactly `OnStep`. For an inherited name it throws after the raw bus has attached the listener |
| EventBus.DetachmentsEffect | lib/server.js:93-95 | `bus.off(name, l)` for each tracked `l` removes exactly those listeners of that name and does not close the bus |
| EventBus.TeardownCallsEffect | lib/server.js:92-96 | The nested teardown loop removes exactly the tracked listeners of the visited names and nothing else |
| EventBus.TornDown | lib/server.js:86-99 | The proxy after the `end` hook: the tracking map is empty, the raw bus received exactly the `off` calls of the nested loop followed by one `close`, and nothing else |
| EventBus.TeardownDetachesTracked | lib/server.js:86-99 | After teardown a listener is attached iff it was attached and not tracked under that name |
| EventBus.TeardownReleasesCovered | lib/server.js:86-99 | If every attached listener was tracked or already on the bus beforehand, after teardown only the beforehand ones remain |
| EventBus.TeardownOrderWithinName | lib/server.js:92-96 | Within each name, teardown calls `bus.off` for the tracked listeners in registration order, each once; for untracked names it makes no call |
| EventBus.OnPreservesCovers | lib/server.js:75-79 | `on` keeps the invariant: every listener on the raw bus is tracked or was there before the proxy existed |
| EventBus.OffPreservesCovers | lib/server.js:81-84 | The corrected `off` keeps the same invariant |
| EventBus.RunCovers | lib/server.js:75-84 | Any sequence of `on`/`off` on a fresh proxy keeps the invariant and never closes the bus |
| EventBus.RunThenTeardownReleases | lib/server.js:65-99 | Any `on`/`off` history followed by teardown leaves only the listeners the bus had when `launchBus` returned it, and closes it exactly once |
| EventBus.OffAsWrittenLeaks | lib/server.js:81-84 | As written, `on(n, l)` then `off(n)` leaves `l` attached and untracked, and still attached after teardown |
| EventBus.OffThenTeardownReleases | lib/server.js:81-99 | Corrected: after `on(n, l)`, `off(n)` and teardown, nothing is left on a bus that started empty |
| EventBus.InheritedNameLeaks | lib/server.js:77-78 | As written, `on('constructor', l)` throws with `l` attached to the raw bus but in no tracked list, which breaks the invariant |
| EventBus.BusProxy.constructor | lib/server.js:65-73 | A new proxy tracks nothing and holds the bus as `launchBus` returned it |
| EventBus.BusProxy.On | lib/server.js:75-79 | Updates the proxy in place as `OnStep` and keeps the invariant |
| EventBus.BusProxy.Off | lib/server.js:81-84 | Updates the proxy in place as `OffStep` and keeps the invariant |
| EventBus.BusProxy.Teardown | lib/server.js:86-99 | Visits each tracked name once and runs the nested loop. The new state is `TornDown` for that visiting order: the bus is closed once, nothing is tracked, and nothing the proxy attached is left |
| EventBus.BusProxy.DetachEach | lib/server.js:93-95 | The inner `forEach` makes the `bus.off(name, l)` calls in list order and leaves the tracking map as it was |
| DisconnectOverride.DisconnectPlan | lib/server.js:41-58 | A given callback is always queued, with the thrown error as its receiver on the throw path. The error is re-thrown iff the supervisor threw and there is no callback |
| DisconnectOverride.EventLoop.SetTimeout | lib/server.js:50-56 | `setTimeout(fn, 0)` appends to the queue and runs nothing |
| DisconnectOverride.EventLoop.RunNext | lib/server.js:50-56 | A later turn runs the oldest queued callback, in queue order |
| DisconnectOverride.Disconnect | lib/server.js:41-58 | Runs no callback during the call. It queues exactly what `DisconnectPlan` says and throws exactly what `DisconnectPlan` says |
| Decisions.SocketErrorRule | lib/server.js:254-257 | An error is swallowed iff it is present with code `EPIPE`. Any other, a missing one included, is re-emitted unchanged. Lines 294-297 apply the same rule |
| Decisions.ConnectEndpoint | lib/server.js:242-250 | Succeeds iff a non-empty path or a non-zero port is given. It dials the path iff one is given, otherwise the port with the host, otherwise the error "no port or unix path given". The address is always one the caller supplied |
| Decisions.ListenEndpoint | lib/server.js:307-315 | A first argument that is not a number fails the assertion of line 268. Otherwise it succeeds iff the port is >= 0 or a path is given, binds the port iff the port is >= 0, otherwise the path, otherwise the error "no port or path provided" |
| Decisions.OppositePreferences | lib/server.js:242-250 | Given both a positive port and a path, `connect` dials the path and `listen` binds the port |
| Decisions.PortZero | lib/server.js:245 | Port 0 alone is no endpoint for `connect` but a valid one for `listen` |
| SessionId.RandomId | lib/server.js:109-115 | The id is the four draws appended in order. Its length is the sum of theirs, and it is hex when they are |
| SessionId.ConcatHex | lib/server.js:112 | Joined hex digit strings are hex |
| SessionId.FreshId | lib/server.js:277-278 | The do-while returns the first draw that is not taken: the id is not taken and every earlier draw was |
| SessionId.InheritedNamesNotHex | lib/server.js:278 | No name a plain object inherits is made of hex digits |
| Sessions.AutoInit | lib/server.js:128-140 | Auto-initialisation is off iff the caller's config gives `autoInit` a falsy value (`false`, and equally an explicit `undefined`, `null`, `0`, `""` or `NaN`). A missing config or a missing key means on |
| Sessions.Session.constructor | lib/server.js:124-143 | A new session is not destroyed and has no id or socket. Its transport, table and one `finish` handler exist iff auto-initialisation is on, and the transport then exposes exactly the table's names |
| Sessions.Session.Init | lib/server.js:163-227 | Builds the table as `BuildTable` and a new transport exposing exactly its keys, with no hooks, and adds one `finish` handler. Nothing else changes |
| Sessions.Session.Write | lib/server.js:147-152 | Accepted iff not destroyed and a transport is present. An accepted chunk is appended to the transport exactly once and acknowledged; a refused write changes nothing |
| Sessions.Session.Read | lib/server.js:154-158 | Succeeds iff not destroyed and a transport is present, and changes nothing |
| Sessions.Session.OnTransportData | lib/server.js:202-204 | A transport chunk is pushed to the readable side, and nothing else changes |
| Sessions.Session.OnTransportSignal | lib/server.js:217-226 | Transport `error`, `remote`, `local` and `fail` are re-emitted unchanged |
| Sessions.Session.OnFinish | lib/server.js:197-199 | Without a `finish` handler (never initialised) nothing happens. Otherwise the transport is asked to end, and the handler throws iff the transport is already gone |
| Sessions.Session.Invalidate | lib/server.js:207-214 | The session's own `end` handler: end of stream is pushed, the transport and table are dropped, and `destroyed` becomes true, with nothing else changed |
| Sessions.Session.OnTransportEnd | lib/server.js:207-214 | The session's own handler as `Invalidate`, then every hooked bus proxy, in hook order, ends in the `TornDown` state for some visiting order of its names: released and closed once |
| Sessions.TeardownAll | lib/server.js:86-99 | The hooks registered on one transport's `end` run each teardown: every proxy ends in `TornDown` of its prior state, released and closed once |
| Sessions.Session.OnSocketError | lib/server.js:254-257 | A socket error is re-emitted on the session as `SocketErrorRule` decides |
| Sessions.Session.LaunchBus | lib/server.js:59-102 | Without a `launchBus` function on the supervisor the call throws, with nothing changed. A supervisor error goes to the callback with nothing changed. A bus arriving after the transport ended makes the callback throw, with nothing changed. Otherwise a fresh, empty proxy whose baseline is the bus's listeners at launch is hooked to the current transport's `end` and handed back |
| Sessions.Session.Connect | lib/server.js:237-265 | Uses exactly `ConnectEndpoint`. On error it changes nothing. Otherwise it takes the new random id, records the dialed socket and registers the `remote` callback if one was given |
| Sessions.Session.Adopt | lib/server.js:277-300 | The accepting server sets the session's id and its socket |
| Registry.Occupied | lib/server.js:278 | The retry loop's plain-object truthiness test (own key or inherited name); for a hex id it is exactly key membership |
| Registry.HexDrawsIgnoreInherited | lib/server.js:277-278 | With hex draws, the as-written retry test decides the same as key membership would |
| Registry.ListeningServer.constructor | lib/server.js:305 | A new server has no sessions |
| Registry.ListeningServer.Accept | lib/server.js:274-302 | The new session is auto-initialised whatever the configuration. Its id was not a key before and earlier draws were taken. After insertion `sessions[id]` is that session and every other entry is unchanged |
| Registry.ListeningServer.OnSessionEnd | lib/server.js:282-284 | A session's `end` removes its key and only its key |
| Registry.ListeningServer.OnSessionSignal | lib/server.js:286-292 | `local` and `remote` of a session are re-announced with the session; others are not |
| Registry.Listen | lib/server.js:267-320 | Fails exactly as `ListenEndpoint` does. Otherwise it makes an empty server bound to the chosen endpoint, with a `listening` callback iff one was given |

## Left out

- The dnode library (wire encoding, callbacks across the wire, when events fire) is outside the model. Transport events are method calls on the session.
- pm2 semantics (process table, what `list`, `start` and the others return) are outside the model. The supervisor is a set of callable names, and its `disconnect` and `launchBus` outcomes are parameters.
- `net`, `pipe` and Node `stream.Duplex` internals are outside the model: buffering, backpressure, and when `finish` and `end` fire. `destroy()` is only an alias of `end()`, so it adds nothing beyond `OnFinish`.
- `Math.random().toString(16)` is replaced by an oracle of strings. Hex-ness of its pieces is an assumption of the lemmas that need it.
- SessionId.FreshId: only runs in which some draw eventually yields a fresh id are modelled. The source loops forever otherwise.
- `setTimeout` timing is outside the model. The queue fixes order only, not delay.
- The callback's `this` (from `cb.bind(err)`) is recorded as the task's receiver. JavaScript `this` semantics are not modelled.
- The argument parser of dnode is outside the model. `Params` is its result.
- The raw bus's removal rule is an assumption about pm2's bus (see EventBus.Perform): `off(n, l)` removes every `l` under `n`, and `off(n)` removes all of them.
- The `cloned` copies of the bus's other function members (lib/server.js:65-71) are not modelled. They forward straight to the bus.
- EventBus.BusProxy.Off models the one-argument `off(name)` the proxy declares. With `bus.off` forwarding, a second argument would remove only that listener while the whole entry is deleted.
- Calling `init()` again leaves the previous transport's handlers in place. Sessions.Session.Init counts the extra `finish` handler but models only the new transport, and the old transport's later events are not modelled.
- EventBus.BusProxy.On (and EventBus.OnStep) model `on` with the tracking dictionary corrected as in the second finding: for a name a plain object inherits the source throws instead, which EventBus.OnStepAsWritten models.
- Sessions.Session.Connect: the `remote` callback is counted, not invoked.
- Sessions.Session OnTransportData, OnTransportSignal and OnTransportEnd require a transport. They model events of the current transport only.
- As written, `on('constructor', f)` also leaves an own non-array entry (line 77), so a later teardown's `forEach` (line 93) throws before `close` (line 98). That teardown crash is not modelled; it cannot arise once `on` is corrected.
- test/test.js is an integration test against a live supervisor and is not part of this model.

## Findings

| source | as written | input that shows it | evidently intended | confidence | as-written member | corrected member |
|---|---|---|---|---|---|---|
| lib/server.js:82 | the proxy's `off` forwards its arguments to `bus.on` | `on('x', f)`, then `off('x')`, then the transport ends: `f` is still attached, untracked, and never detached | forward to `bus.off` (the corrected half covers the one-argument `off(name)` the proxy declares) | high, not executed | EventBus.OffAsWrittenLeaks | EventBus.OffThenTeardownReleases |
| lib/server.js:77 | the fallback from `listeners[name]` to `[]` on a plain object | `on('constructor', f)`: `listeners.constructor` is the `Object` function, so `.push` throws after the bus attached `f`; teardown never detaches it, and the own `constructor` entry line 77 left makes the teardown's `forEach` throw before `bus.close()` runs | a dictionary without inherited names | medium, not executed | EventBus.InheritedNameLeaks | EventBus.OnPreservesCovers |
