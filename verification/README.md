# ocs-manager core in Dafny: WebSocket dispatch/broadcast and the AppImage update poller

This project models two small sequential state machines from ocs-manager.

- **The WebSocket server** (`WebSocketServer`). It keeps an ordered list of
  connected client sockets and accepts call envelopes `{id, func, data}` in
  text or binary frames. It resolves each call against a fixed table of
  function names. A supported call gets exactly one reply envelope carrying
  the caller's `id` and `func`. Handler signals are forwarded as envelopes with
  an empty `id`. Every outbound envelope, reply or signal, goes to every
  connected client in registration order.
- **The AppImage update poller** (`AppImageUpdater`). `start` resets the
  outcome fields and asks the update library to begin. A timer then checks the
  library on every tick. The poller forwards progress until the library is
  done, records the outcome, emits `finished`, and that stops the timer.

The style is functional. States are immutable datatypes, and every event is a
pure step function that returns the next state. Sends, handler calls and
configuration writes are appended to logs held in that state.

Modules:

- `Wrappers`: `Option`.
- `Sequences`: occurrence counting and duplicate-freedom, used by both state
  machines.
- `Json`: JSON values, a frame's parse result, and the total accessors and
  conversions the server uses (`toString`, `toArray`, `toObject`, `toBool`,
  `toInt` and `at`, with their defaults).
- `Registry`: the client list, with append on connect and remove-all on
  disconnect.
- `Broadcast`: envelopes, deliveries, and `SendMessage`, which fans an
  envelope out to every client.
- `Dispatch`: the table of 43 supported names, each with the conversion of
  every argument its handler reads and the shape of its reply, and
  `ReceiveMessage`.
- `Events`: the 15 forwarded handler signals, their envelopes, and a decoder
  that inverts them.
- `Server`: the server's steps (start, stop, connect, disconnect, frame,
  signal).
- `AppImageUpdater`: the poller's construction, `start`, the timer tick, the
  drain loop, and runs of ticks.

Oracles and parameters:

- The update library's answers are oracle inputs: the `start` flag, and one
  `Reading` per tick (done, hasError, optional progress, queued status
  messages).
- Handler results are an oracle `(func, args) -> Value`. This also covers the
  server's own status queries (`isError`, `errorString`, `serverUrl`).
- The listener's success, the server URL and the current user application
  configuration are parameters of the steps that read them.
- The sender of a frame or disconnect is `Option<ClientId>`. `None` stands for
  a sender that is not a client socket, which the source's cast rejects.

Behaviour of the code that the model keeps as it is:

- Replies are broadcast. `sendMessage` (websocketserver.cpp:425-428) loops
  over every registered client, so every registered client receives every
  reply, the sender included when it is registered. A sender that is not
  registered receives nothing. `Server.CallAnsweredOnEveryConnection` states
  this.
- Progress is forwarded exactly as the library reports it, with no clamping
  (`AppImageUpdater.CheckProgress`).
- A failed update can finish with an empty `errorString`: when no status
  message was queued, or when `start` was refused. A successful update always
  has an empty `errorString` (`AppImageUpdater.AcceptedStartOutcome`).
- Arguments are not validated before dispatch. Each is read positionally and
  converted to the type its handler takes. A missing or wrongly typed argument
  becomes that type's default (`""`, the empty object, `false` or `0`), so a
  call with wrongly typed arguments reaches the handler exactly like a call
  with none (`Json.IllTypedArgumentsReadAsMissing`).

## Model

| member | source | states |
|---|---|---|
| Registry.Connect | app/src/websockets/websocketserver.cpp:95-104 | a new connection is appended at the end; every earlier entry is unchanged |
| Registry.RemoveAll | app/src/websockets/websocketserver.cpp:106-113 | a disconnect removes every occurrence of the client; all other clients stay, and the multiset shrinks by exactly that client's occurrences |
| Registry.RemoveAllConcat | app/src/websockets/websocketserver.cpp:110 | removal distributes over concatenation, so the remaining clients keep their original order |
| Registry.RemoveAbsent | app/src/websockets/websocketserver.cpp:110 | removing a client that is not registered leaves the list unchanged |
| Registry.DisconnectUndoesConnect | app/src/websockets/websocketserver.cpp:95-113 | disconnecting a freshly connected client restores the previous list exactly |
| Registry.ConnectKeepsDistinct | app/src/websockets/websocketserver.cpp:97-103 | appending a handle that is not registered yet keeps the list free of duplicates |
| Registry.RemoveAllKeepsDistinct | app/src/websockets/websocketserver.cpp:106-113 | removal keeps the list free of duplicates |
| Broadcast.SendMessage | app/src/websockets/websocketserver.cpp:407-429 | one delivery per registered client, in registry order, each carrying the identical envelope; no clients means no deliveries |
| Broadcast.SendMessageReachesEachRegistration | app/src/websockets/websocketserver.cpp:425-428 | a client receives the envelope once per registration and receives nothing else |
| Broadcast.SendMessageExactlyOnce | app/src/websockets/websocketserver.cpp:425-428 | in a duplicate-free registry, a registered client gets exactly [e] and an unregistered one gets nothing |
| Json.Convert | app/src/websockets/websocketserver.cpp:284-397 | an argument of the handler's parameter type passes through unchanged (for an integer parameter, a number that fits a 32-bit `int`); any other value, an out-of-range number included, becomes that type's default |
| Json.Args | app/src/websockets/websocketserver.cpp:361-363 | arguments are read by position without a bounds check: each available argument of the right type is passed as it is, a wrongly typed one becomes its type's default, and a missing one reads as that default too |
| Json.IllTypedArgumentsReadAsMissing | app/src/websockets/websocketserver.cpp:284-397 | a call whose arguments all have the wrong type reaches the handler with the same arguments as a call with an empty data array |
| Dispatch.StartedConfig | app/src/websockets/websocketserver.cpp:58-60 | a successful start saves the application configuration with websocket_url set to the server URL and every other key kept |
| Dispatch.StopForgetsStartedUrl | app/src/websockets/websocketserver.cpp:55-75 | stopping after a start saves the same configuration as stopping without it: the URL a start wrote never survives a stop |
| Dispatch.StopEffects | app/src/websockets/websocketserver.cpp:68-75 | stopping saves the application configuration with websocket_url set to "" and every other key kept, then closes the listener |
| Dispatch.ReceiveMessage | app/src/websockets/websocketserver.cpp:248-405 | an unsupported name is dropped; a supported one gives one reply with the caller's id and func, with empty data for job-initiating and void calls and a one-element array holding the handler's result otherwise |
| Events.EventEnvelope | app/src/websockets/websocketserver.cpp:139-246 | every forwarded signal is sent as a server-initiated envelope with an empty id |
| Events.EventRoundTrip | app/src/websockets/websocketserver.cpp:139-246 | every forwarded signal is broadcast with an empty id, a fixed name and a fixed positional payload, from which the signal can be read back |
| Events.DecodedEventIsForwarded | app/src/websockets/websocketserver.cpp:139-246 | an envelope that reads back as a signal is exactly that signal's forwarded envelope, so names and payload layouts do not collide |
| Server.Init | app/src/websockets/websocketserver.cpp:16-47 | a freshly constructed server has no clients, has sent nothing and has invoked nothing |
| Server.InboundEnvelope | app/src/websockets/websocketserver.cpp:119-122 | the id, func and data of an inbound object are its members of those names when they are a string, a string and an array; otherwise they read as "", "" and [] |
| Server.Start | app/src/websockets/websocketserver.cpp:55-66 | if the listener comes up, websocket_url is set to the server URL, started is emitted and true is returned; otherwise nothing changes and false is returned |
| Server.Stop | app/src/websockets/websocketserver.cpp:68-75 | stopping performs the stop effects; clients and deliveries are unchanged |
| Server.NewConnection | app/src/websockets/websocketserver.cpp:95-104 | the registry gains the client at its end; nothing is sent or invoked |
| Server.Disconnected | app/src/websockets/websocketserver.cpp:106-113 | a disconnect from a client socket removes all its registrations; any other sender changes nothing |
| Server.MessageReceived | app/src/websockets/websocketserver.cpp:115-137 | a frame from a client socket that parses to an object is dispatched, and its reply is broadcast to all registered clients; other frames change nothing |
| Server.SignalRaised | app/src/websockets/websocketserver.cpp:139-246 | a handler signal appends its envelope's broadcast to the registered clients and invokes nothing |
| Server.Send | app/src/websockets/websocketserver.cpp:407-429 | the delivery log keeps its old entries and gains one delivery of the sent envelope per registered client, in registry order; so each client gains one delivery per registration; registry and effects are unchanged |
| Server.LogsOnlyGrow | app/src/websockets/websocketserver.cpp:404-428 | no step takes back a delivery or an effect |
| Server.StepKeepsClientsDistinct | app/src/websockets/websocketserver.cpp:95-113 | if every new connection is a handle not registered yet, the registry never holds a client twice |
| Server.CallAnsweredOnEveryConnection | app/src/websockets/websocketserver.cpp:404-428 | a supported call is answered exactly once on every registered connection, the sender's and every other, with the caller's id and func; an unregistered client gets nothing |
| Server.SignalReachesEveryClient | app/src/websockets/websocketserver.cpp:139-246 | a forwarded signal reaches every registered client exactly once |
| Server.NonObjectFramesAreDropped | app/src/websockets/websocketserver.cpp:115-137 | a frame that does not parse to a JSON object, or whose sender is not a client socket, leaves the server unchanged |
| Server.UnsupportedCallsAreDropped | app/src/websockets/websocketserver.cpp:399-402 | a call to a name outside the table leaves the server unchanged: no effect and no reply |
| AppImageUpdater.Create | app/src/updaters/appimageupdater.cpp:7-13 | after construction the poller is not finished-with-no-error, has an empty errorString and is not polling |
| AppImageUpdater.Start | app/src/updaters/appimageupdater.cpp:58-72 | start resets the outcome; a refused start emits finished once and does not poll, an accepted one starts polling and emits nothing |
| AppImageUpdater.DrainStatusMessages | app/src/updaters/appimageupdater.cpp:84-88 | the drain loop appends every queued status message, in order, each followed by "\n" |
| AppImageUpdater.CheckProgress | app/src/updaters/appimageupdater.cpp:74-95 | a not-done tick only forwards the library's progress, unchanged, when it has one; done with error appends the drained messages and emits finished; done without error sets success, keeps errorString and emits finished; without a timer nothing happens |
| AppImageUpdater.NoTicksAfterFinished | app/src/updaters/appimageupdater.cpp:68-71 | once the timer is stopped, no later tick changes anything or emits anything |
| AppImageUpdater.RunOutcome | app/src/updaters/appimageupdater.cpp:68-95 | a polling run forwards progress for each reading before the first done one, then emits finished once and stops; that done reading decides the outcome |
| AppImageUpdater.StepsKeepConsistent | app/src/updaters/appimageupdater.cpp:7-95 | construction, start and ticks keep the outcome consistent: nothing is decided while polling, and a success carries no error text |
| AppImageUpdater.RefusedStartNeverPolls | app/src/updaters/appimageupdater.cpp:63-66 | a refused start emits finished exactly once, is not successful, has an empty errorString, and no tick follows |
| AppImageUpdater.AcceptedStartOutcome | app/src/updaters/appimageupdater.cpp:58-95 | after an accepted start, a finished run is successful exactly when the library reported no error; a success has an empty errorString, and a failure has exactly the drained messages |
| AppImageUpdater.ProgressEventsAreProgress | app/src/updaters/appimageupdater.cpp:76-82 | not-done ticks only emit progress for the poller's own id, never finished |
| AppImageUpdater.FinishedAtMostOnce | app/src/updaters/appimageupdater.cpp:68-95 | a polling run emits finished exactly once if the library reported done and never otherwise; everything else it emits is progress |
| AppImageUpdater.ErrorTextKeepsEveryMessage | app/src/updaters/appimageupdater.cpp:86-88 | when no status message contains a newline, the error text splits back into exactly the drained messages, in order |

## Left out

- Qt socket and server plumbing is left out: listening and ports, `nextPendingConnection`, `deleteLater`, `serverUrl`, `isError`, `errorString`, the `closed`→`stopped` wiring and the destructor. Where a step needs the listener's result or the URL, it takes it as a parameter.
- JSON parsing and serialisation are left out. A frame is given as its parse result (object or not), and an envelope is a structured value, not text. Text and binary frames behave the same once parsed, so one step models both.
- Handler bodies are left out: configuration, system, OCS API, item, update and desktop-theme handlers. Their results are an oracle, and their side effects are recorded only as an `Invoked(func, args)` effect.
- Json.Args: an index past the end of the argument array reads as `Undefined` and so converts to the parameter type's default. The server does no bounds check there, and what Qt does for such an access is not something the server defines.
- The rule "at most one active job per key" is left out. It would belong to the update handler, which is not part of this model.
- `AppImageUpdater::describeAppImage`, `checkForChanges`, the `id`/`path` getters and the update library's internals are left out. The library is thin wrapping over code that is not part of this model. The getters `isFinishedWithNoError` and `errorString` are the fields of the same names.
- Timer intervals are left out, and ticks are discrete steps. When `start` is accepted twice, a second timer runs, which only makes ticks more frequent. Every timer is stopped by `finished`.
- Floating point is left out. Progress fractions and byte counts are modelled as unbounded integers, which are forwarded unchanged and never used in arithmetic.
