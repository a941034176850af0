# OSC-to-WebSocket bridge: controller model

This project models the controller at the heart of `osc-bridge.cjs`. The bridge
listens for OSC messages on one UDP port. It relays each message, as a JSON
record, to every connected browser. A browser can move the UDP listener to
another port at run time. The UDP and WebSocket libraries are treated as
sources of events. Each handler is one atomic method of the class
`Bridge.OscBridge`. The class holds the module-level state of the program:

- `clients`: the set of connected browsers.
- `currentOscPort`: the port of the last accepted `set_osc_port` request. It is None until one is accepted, and a rejected request leaves it as it was.
- `listener`: the current UDP listener.
- `readyState`: each connection's WebSocket state. The transport sets it.
- `outbox`: everything sent to each connection, in order.
- `listenerPort`: the port each listener was created for. Its handlers capture this port.
- `actions`: the log of close, create and open requests made of the UDP library.

Files:

- `records.dfy` (module `OscRecords`): the decoded OSC message, the four outgoing
  record shapes (`Data`, `Ready`, `Error`, `Status`) and the construction of a
  data record.
- `control.dfy` (module `Control`): a browser's request after `JSON.parse`, and
  the guard that decides whether it restarts the listener.
- `bridge.dfy` (module `Bridge`): the class, its invariant `Valid()`, and the
  fan-out specification `FanOut` with its lemmas. `Valid()` says that the
  current listener is the one created last, for the port recorded last, and
  that every earlier listener has had `close()` called on it.
- `scenarios.dfy` (module `Scenarios`): runs from start-up, each proved for all
  values of its parameters.

Two behaviours of the code are easy to misread. The model keeps both as written:

- A listener that has been replaced keeps its handlers, and they still
  broadcast. A late `ready` from it sends `osc_ready` with the old port. No
  stale-handle guard exists.
- `osc_status` is sent on connect whenever a port has been recorded. This
  happens even if that port never bound, because `currentOscPort` is set
  before `open()`.

## Model

| member | source | states |
|---|---|---|
| OscRecords.ArgValues | osc-bridge.cjs:46 | the result has one value per argument, in the same order, and each is that argument's `.value` |
| OscRecords.DataRecord | osc-bridge.cjs:44-48 | a data record keeps the address unchanged and carries the receive time. Its args are the argument values in order, or empty when the message has no argument list |
| Control.RequestedPort | osc-bridge.cjs:101-105 | a port is accepted exactly when the frame parsed, its type is `set_osc_port`, its port field is truthy, and the field coerces to an integer p with 0 < p < 65536. The accepted port is that p. Malformed frames, other types, NaN and out-of-range values give None |
| Bridge.OscBridge.constructor | osc-bridge.cjs:16-20 | at start-up there are no clients, nothing has been sent, and there is no listener and no recorded port |
| Bridge.OscBridge.Broadcast | osc-bridge.cjs:55-59 | the record is appended once to the outbox of every client in `clients` whose state is OPEN. Other outboxes, `clients` and the listener state are unchanged |
| Bridge.FanOutUnion | osc-bridge.cjs:55-59 | fanning out to two disjoint groups one after the other equals fanning out to both, so the visiting order of `forEach` does not matter |
| Bridge.FanOutEachAt | osc-bridge.cjs:55-59 | after consecutive broadcasts, each OPEN client has been sent every record exactly once, in the order of the broadcasts. Every other client's outbox is unchanged |
| Bridge.OscBridge.Connect | osc-bridge.cjs:87-94 | a new handle joins `clients` with state OPEN. Its outbox is exactly one `osc_status` with the recorded port when that port is truthy, and empty otherwise. Other clients and the listener are untouched |
| Bridge.OscBridge.TransportStateChange | osc-bridge.cjs:56 | the transport changes one connection's `readyState`, which the fan-out reads. Nothing else changes |
| Bridge.OscBridge.Disconnect | osc-bridge.cjs:112-115 | only that handle leaves `clients`. Outboxes and the listener are untouched |
| Bridge.OscBridge.StartOscListener | osc-bridge.cjs:22-85 | if a listener exists, it is closed first and any exception from `close()` is ignored. Then `currentOscPort` becomes the port, and a new listener for it is created and opened. The log grows by exactly close-old (if any), create-new, open-new. The new listener is current and every older one has been closed. No check skips a port that is already active |
| Bridge.OscBridge.OnClientMessage | osc-bridge.cjs:96-110 | a request that `RequestedPort` accepts performs exactly the `StartOscListener` restart. Any other frame, malformed JSON included, leaves the whole bridge unchanged |
| Bridge.OscBridge.OnOscMessage | osc-bridge.cjs:43-60 | a datagram decoded by any listener, current or replaced, is fanned out as its data record. Only outboxes change |
| Bridge.OscBridge.OnListenerReady | osc-bridge.cjs:62-71 | `osc_ready` is fanned out with the port that listener was created for, not the recorded port. Only outboxes change |
| Bridge.OscBridge.OnListenerError | osc-bridge.cjs:73-82 | `osc_error` with the error text is fanned out. The listener and the recorded port stay as they are |
| Scenarios.RestartThenForward | osc-bridge.cjs:43-71 | after a request for a valid port p, its `ready` and a `/test` datagram with 1.5, a browser has received `osc_ready` p and then the data record `/test` [1.5] |
| Scenarios.SamePortTwice | osc-bridge.cjs:22-40 | requesting the same port twice closes the first listener and creates and opens a second. The browser gets two `osc_ready` records for that port |
| Scenarios.BadPortIgnored | osc-bridge.cjs:101-105 | after port p, a request with an out-of-range or NaN port leaves p recorded and makes no listener request |
| Scenarios.StatusOnConnect | osc-bridge.cjs:87-94 | a browser that connects before any request is sent nothing. One that connects after port p was requested gets exactly `osc_status` p, before any bind outcome |
| Scenarios.BroadcastTwice | osc-bridge.cjs:55-59 | two broadcasts in turn, with `clients` and every `readyState` unchanged, give exactly `FanOutEach` of the two records: each OPEN client is sent both, in order, and every other outbox is unchanged |
| Scenarios.StaleListenerReports | osc-bridge.cjs:62-71 | after moving from p to q, a late `ready` from the first listener sends `osc_ready` p while q stays recorded |

## Left out

- The UDP socket, OSC packet decoding and the `metadata` option of the `osc` library are not modelled. Creating, opening and closing a listener are entries in the action log. Decoded messages, bind success and socket errors are handler calls.
- Whether `close()` throws is a parameter (`closeFails`). It is recorded in the log and changes nothing else, as in the source.
- An exception thrown synchronously by `new osc.UDPPort` or `open()` is not modelled. The message handler's `catch` would swallow it, and the new port would stay recorded. If `new osc.UDPPort` throws, `udpPort` is not reassigned: it keeps the previous handle, already closed, or stays unset when there was none. If `open()` throws, `udpPort` is already the new handle.
- The WebSocket server and transport are not modelled. `readyState` is an input field. `send` appends to the connection's outbox and never fails. Back-pressure and buffering are not modelled.
- `JSON.stringify`/`JSON.parse` text formats are not modelled. Outgoing records are the `Msg` datatype. Incoming frames are the `Request` datatype, with a parse or field-access exception as `Malformed`.
- JavaScript `parseInt` and truthiness of the `port` field are inputs (`PortValue(truthy, asInt)`, with None for NaN).
- `Date.now()` is the `now` parameter.
- OSC float arguments are exact reals. Integer widths of OSC values are not modelled.
- `OscValue` covers integers, floats, strings, blobs, booleans and nil only. The other kinds the `osc` library decodes with metadata on (time tags, colours, MIDI messages, chars, Infinitum) have no constructor. `ArgValues` copies each argument's `.value` whatever its kind, so they would pass through unchanged.
- The `WS_PORT` command-line argument and all console logging are left out.
- Event-loop interleaving is not modelled. Each handler is one atomic step. Any listener ever created, closed ones included, may deliver a datagram, a `ready` or an `error` at any time. The model does not capture which of these the UDP library really delivers after `close()`.
