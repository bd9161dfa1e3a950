# Signal bot control server, modelled in Dafny

The server (`Server.js`) drives one WhatsApp session on behalf of an operator and broadcasts
"signals" to one group. Its behaviour lives in five module-level variables (`sock`,
`qrCodeBase64`, `botStatus`, `groupId`, `signalInterval`) that change in two ways:

- **Session events.** The `connection.update` handler reacts to a `qr` token, to `close` (with
  a disconnect status code) and to `open`.
- **Operator requests.** Connect, disconnect, list groups, select group, send, start recurring
  signals and stop them. A live interval also fires on its own.

The project models this as:

- `options.dfy` (module `Options`): the optional value that stands for `null`.
- `bot_spec.dfy` (module `BotSpec`): the state as a value and one function per handler or event.
  Each function's contract states its guards as if-and-only-if conditions, what it changes and
  what it leaves alone, and that it preserves `Inv`. `Inv` is the invariant of every reachable
  state:
  - the only live interval is the one the server holds, and only while a socket exists;
  - interval handles are fresh;
  - a connected bot shows no pairing code;
  - every send is logged as exactly one signal with the same text, and a manual one only to a
    configured group.
- `bot_traces.dfy` (module `BotTraces`): runs of any length over all requests and events.
  - Lemmas show that every reachable state satisfies `Inv`, which gives "replace, not stack"
    for the interval.
  - The logs are append-only.
  - After a stop, no tick does anything.
  - `n` ticks send the captured message `n` times.
  - Four end-to-end scenarios cover a manual send, a recurring run that is then stopped, a
    close that reconnects and one that does not, and two starts in a row.
- `bot_server.dfy` (module `BotServer`): class `Bot`. Its fields are the server's variables and
  its methods follow each handler branch by branch. Every mutating method has a field-precise
  `modifies` clause. It ensures that the new `Model()` is the matching `BotSpec` function of the
  old one. Every mutating method but one requires and keeps `Valid()`. The exception is
  `Bot.StopSignals`, which neither requires nor ensures it, because `Disconnect` calls it after
  the socket is cleared and before the interval is, when the invariant is briefly broken.

Timers are modelled the way the JavaScript runtime holds them: `timers` maps each live interval
handle to the job it runs, and `signalInterval` is the handle the server keeps. So
`clearInterval` and `setInterval` are explicit, and "at most one interval is ever live" is a
theorem, not a consequence of having one slot. Reconnect timeouts are a count of pending
firings. Ticks and reconnect firings are explicit operations with no clock.

JavaScript truthiness is kept where the code relies on it:
- `!groupId` also rejects an empty group id;
- `if (qr)` ignores an empty token;
- `intervaloMinutos || 5` turns a missing or zero interval into five minutes;
- a missing disconnect status code is not `loggedOut`, so it reconnects.

`loggedOut` is the messaging library's status code 401.

Where the code does something other than what one might expect of it, the model follows the code:
- A `close` event sets `desconectado` and clears the pairing code. It does **not** null `sock`
  and does **not** stop the recurring interval (`CloseKeepsRecurringJob`), so a later tick still
  calls the session.
- A scheduled reconnect calls `conectarWhatsApp` directly, without the "already connected" check
  of the connect request.
- Connect is refused only while `conectado`. While awaiting a QR scan, a second connect opens a
  second session.
- Disconnect does not clear the pairing code. With no socket, it leaves the status as it was.
- If `sock.logout()` rejects, the disconnect handler stops at its `await`. The socket, the status
  and the recurring interval stay, and the interval keeps firing (`FailedLogoutKeepsJob`).
  Disconnect takes whether the logout resolves as a parameter.
- A tick checks neither the status nor the group. It reads `groupId` when it fires, not when the
  job started, and it sends the message captured at start.

## Model

| member | source | states |
|---|---|---|
| BotSpec.Initial | Server.js:20-24 | the start-up variables: disconnected, no socket, code, group or interval; empty logs; the invariant holds |
| BotSpec.OpenSession | Server.js:26-32 | opening a session sets the socket and counts one more session; status, pairing code and job are unchanged until an event arrives |
| BotSpec.Connect | Server.js:63-66 | refused with AlreadyConnected iff the status is `conectado`, and then nothing changes; otherwise exactly one session is opened, even while awaiting a QR; status and code unchanged; keeps the invariant |
| BotSpec.HandleUpdate | Server.js:34-54 | a truthy qr stores the code and awaits a scan; close gives `desconectado`, clears the code and schedules one reconnect iff the code is not loggedOut; open gives `conectado`, clears the code and writes exactly one snapshot; an event with none of these changes nothing; the socket, group, job and the send, signal and config logs are never touched; keeps the invariant |
| BotSpec.FireReconnect | Server.js:43-44 | a pending reconnect opens exactly one session with no status guard and is consumed; with none pending nothing changes |
| BotSpec.StopSignals | Server.js:130-132 | afterwards no interval is held; the held interval is removed from the live ones and nothing else changes; a no-op when none is held; under the invariant no interval stays live |
| BotSpec.Disconnect | Server.js:69-73 | logout is called once iff a socket exists; LogoutFailed iff there is a socket and its logout rejects, and then nothing else changes (socket, status and job stay); otherwise Ok, with no socket and no job afterwards, and the status is `desconectado` if there was a socket; the pairing code and group are always kept |
| BotSpec.ListGroups | Server.js:75-80 | Ok iff a socket exists and the status is `conectado`, returning the session's groups; otherwise NotConnected with no groups |
| BotSpec.SelectGroup | Server.js:82-86 | sets the group with no connection precondition and logs one config write of it; nothing else changes |
| BotSpec.Send | Server.js:88-98 | NotConnected iff not ready; NoGroup iff ready with no truthy group; a refusal changes nothing; success appends exactly one (group, message) send and one manual signal with the message, and nothing else |
| BotSpec.PeriodMs | Server.js:112 | missing or zero minutes give five minutes; otherwise minutes times 60000; always a whole number of minutes; positive iff the minutes are not negative |
| BotSpec.StartSignals | Server.js:100-114 | the same guards as Send, in the same order, and a refusal changes nothing; success clears the held interval first, then holds one fresh interval whose job is the new message and period |
| BotSpec.Tick | Server.js:105-111 | a cleared interval, or a missing socket, does nothing; a live one sends its captured message to the group as read at tick time and appends one automatic signal; nothing else changes |
| BotSpec.StopIdempotent | Server.js:130-132 | stop; stop is the same as stop |
| BotSpec.DisconnectIdempotent | Server.js:69-73 | after a disconnect that completed, a second one changes nothing and calls no second logout |
| BotSpec.FailedLogoutKeepsJob | Server.js:70-71 | a disconnect whose logout rejects keeps the socket and the held interval live, and the next tick still sends |
| BotSpec.Truthy | Server.js:90 | the `!groupId` test: an absent or empty group id is falsy, and any non-empty one is truthy (also the `if (qr)` test at line 36) |
| BotSpec.Ready | Server.js:76 | the shared guard of listing, sending and starting (also lines 89 and 102): true iff a socket exists and the status is `conectado` |
| BotSpec.ShouldReconnect | Server.js:43 | reconnect unless the close status code is loggedOut (401); a missing code reconnects |
| BotTraces.Apply | Server.js:34-119 | each event, request or tick keeps the invariant and only appends to the logs |
| BotTraces.RunPreservesInv | Server.js:20-132 | every sequence of events, requests and ticks keeps the invariant |
| BotTraces.ReachableStatesSatisfyInv | Server.js:100-132 | every reachable state satisfies the invariant: at most one live interval, and it is the held one; a held job implies a socket |
| BotTraces.RunOnlyAppends | Server.js:88-111 | sends, signals and config writes are only appended to, and the counts of snapshots, logouts and sessions never decrease |
| BotTraces.TicksWithoutTimersAreSilent | Server.js:130-132 | with no live interval, any number of ticks changes nothing |
| BotTraces.TicksAfterStopAreSilent | Server.js:116-119 | after a stop, any number of ticks of any handle changes nothing |
| BotTraces.TicksRepeatCapturedMessage | Server.js:105-112 | n firings of a live interval send its captured message n times to the current group and append n automatic signals, and nothing else |
| BotTraces.StartTwiceKeepsOneTimer | Server.js:104-105 | two starts leave exactly one live interval, the second with the second message; the first handle no longer fires |
| BotTraces.CloseKeepsRecurringJob | Server.js:40-45 | a close event keeps the socket and the live interval, and the next tick still sends |
| BotTraces.ManualSendScenario | Server.js:82-98 | connect, open, select "G1", send "hi": connected, one snapshot, exactly one send ("G1", "hi") and one manual signal |
| BotTraces.RecurringScenario | Server.js:100-119 | start "ping" every minute, two ticks, stop, one more tick: exactly two sends and two automatic signals, and no interval left |
| BotTraces.CloseReconnectScenario | Server.js:40-45 | after a close and a reconnect firing, exactly one session is opened unless the close code was loggedOut, in which case none is |
| BotServer.Bot.constructor | Server.js:20-24 | the object starts in the start-up state and is valid |
| BotServer.Bot.OpenSession | Server.js:26-32 | the socket is replaced by a new one; equals BotSpec.OpenSession on the old state |
| BotServer.Bot.HandleUpdate | Server.js:34-54 | the three branches in order; equals BotSpec.HandleUpdate; only status, code, snapshots and pending reconnects may change |
| BotServer.Bot.FireReconnect | Server.js:43-44 | equals BotSpec.FireReconnect; keeps the object valid |
| BotServer.Bot.Connect | Server.js:63-66 | AlreadyConnected iff the old status was `conectado`; equals BotSpec.Connect |
| BotServer.Bot.StopSignals | Server.js:130-132 | no interval is held afterwards; equals BotSpec.StopSignals; only the interval fields may change |
| BotServer.Bot.Disconnect | Server.js:69-73 | logouts grow by one iff there was a socket; on Ok no socket and no held or live interval; on LogoutFailed the socket and the interval stay; equals BotSpec.Disconnect |
| BotServer.Bot.ListGroups | Server.js:75-80 | Ok iff a socket exists and the status is `conectado`, returning the session's groups; changes nothing |
| BotServer.Bot.SelectGroup | Server.js:82-86 | the group becomes the id and one config write is logged; equals BotSpec.SelectGroup |
| BotServer.Bot.Send | Server.js:88-98 | Ok iff ready with a truthy group; equals BotSpec.Send; only the two logs may change |
| BotServer.Bot.StartSignals | Server.js:100-114 | on success the only live interval is the new one with the new job; equals BotSpec.StartSignals |
| BotServer.Bot.StopRecurring | Server.js:116-119 | always Ok and no interval is live afterwards; equals BotSpec.StopSignals |
| BotServer.Bot.Tick | Server.js:105-112 | equals BotSpec.Tick: only the two logs may change |

## Left out

- HTTP plumbing is not modelled: Express routing, CORS, static files, `app.listen` and the JSON
  reply texts (Server.js:10-13, 134). Each request's result is an `Outcome`.
- `GET /api/status` (Server.js:59-61) only reads `status`, `qrCode` and `groupId`, which are the
  class's fields.
- `GET /api/historial` (Server.js:121-128) is a Firestore query. Its ordering and limit are the
  store's, and its date formatting depends on the locale.
- Firebase initialisation, server timestamps and persistence failures are left out. Every store
  write succeeds and is modelled as an append to a log or a counter.
- The auth-state setup (`useMultiFileAuthState`, `creds.update`, `saveCreds`) is part of the
  messaging library.
- The library's send and list calls always succeed. That includes a tick's send to an unset group,
  whose real result depends on the library. So a failed send that produces no signal record is not
  modelled.
- `groupFetchAllParticipating` is not modelled in detail: its groups are passed back as the
  session reports them, without the `{id, nombre}` reshaping.
- `QRCode.toDataURL` is a foreign encoding. The pairing code stored is the token itself.
- Real time is not modelled: no 3000 ms reconnect delay and no wall clock. The interval's period
  is computed and stored, but ticks and reconnect firings happen when an operation says so. Node's
  clamping of a non-positive or oversized delay is not modelled.
- Interleaving at `await` points and unhandled promise rejections are not modelled. Each handler
  runs atomically. A tick with no socket throws before it sends, so it changes nothing.
- Request bodies have the expected types: the message is a string, the interval an optional
  integer and the group id an optional string. Non-numeric or NaN intervals and a missing message
  text are not modelled.
- Events from a socket that a later connect replaced still reach the same handler, as in the code.
  The model does not tell sockets apart.
