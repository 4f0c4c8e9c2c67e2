# WebSocket device relay — a Dafny model

This project models the WebSocket relay of the embedded-backend server
(`websocket.js`). The relay accepts connections from one embedded device
(an ESP32 sorting rig) and from any number of browser observers. It does
three things:

- It turns each device report into a record of type `ESP32Data`, stores it,
  and broadcasts it to the observers.
- It forwards each observer command to the device.
- It sends every newly opened connection the latest stored record.

The model has three modules:

- `Json` (`json.dfy`) covers decoded payloads and the JavaScript semantics the
  handlers rely on:
  - truthiness;
  - property reads, where `undefined` is `None` and reading a property of
    `null` throws;
  - the `String()` conversion, which throws for an object that has its own
    `toString` key;
  - the built-in `parseInt` with no radix: leading white space, a sign, a
    `0x` prefix, the longest digit run, and `NaN`.
- `Normaliser` (`normaliser.dfy`) builds the report record from a payload:
  - the `||` fallback chains for the device id and the size source;
  - `getSizeLabel`;
  - the two sensor shapes. In the nested shape a number means "detected" when
    it is `0` (active-low). In the flat shape a value means "detected" when it
    is truthy.
  - the motors and the LED flag;
  - the classification of an inbound payload as a device report, a command,
    or neither.
- `Relay` (`relay.dfy`) is a class `Server`. Its fields model the
  module-level `esp32Client` slot, the set of connections with their
  `readyState`, the frames sent on each connection, and the report
  collection. The `connection`, `message` and `close` handlers,
  `sendSystemStatus` and `broadcastToWebClients` are methods that update this
  state. Each handler runs as one atomic step.

The key facts proved:

- A broadcast reaches every open connection except the bound device.
- A command reaches the bound device only while it is open.
- A report binds its sender as the device even when building the record
  throws.
- The store and the broadcast change only when the record is built and saved.
- A close unbinds the device only when the closing connection is the device.
- `parseInt(String(n)) == n` for every integer `n`, so numeric size codes
  1, 2 and 3 map to Small, Medium and Large.

`save()` is awaited inside the `try` block, so a rejected save jumps to the
`catch` and nothing is broadcast. With `saved == false` the store and every
outbox stay unchanged.

## Model

| member | source | states |
|---|---|---|
| Json.FalsyValues | websocket.js:25 | exactly `null`, `false`, `0` and `""` are falsy; empty objects and arrays are truthy |
| Json.TrimStartDrops | websocket.js:106 | parseInt's trim removes a prefix made only of white space and stops at the first character that is not white space |
| Json.DigitPrefixLongest | websocket.js:106 | the digit run parseInt reads is a prefix of all digits, and the next character is not a digit |
| Json.TrimStartSkips | websocket.js:106 | trimming white space followed by a non-space text yields exactly that text |
| Json.DigitPrefixStops | websocket.js:106 | the digit run of digits followed by a non-digit is exactly those digits |
| Json.NatToStringDenotes | websocket.js:106 | the decimal text of a natural number is a non-empty digit run that denotes that number |
| Json.MagnitudeDecimal | websocket.js:106 | a decimal digit run followed by a non-digit, and not a `0x` prefix, reads as its decimal value |
| Json.ParseIntSigned | websocket.js:106 | parseInt skips leading white space and applies one optional sign to the magnitude |
| Json.ParseIntDecimal | websocket.js:106 | parseInt of white space, a sign, decimal digits and any trailing text is the signed decimal value |
| Json.ParseIntOfIntToString | websocket.js:106 | `String(n)` is n's decimal text and `parseInt(String(n)) == n` for every integer n |
| Normaliser.FirstTruthy | websocket.js:31-32 | an `a \|\| b \|\| … \|\| fallback` chain yields the first truthy candidate, or the fallback when all are falsy |
| Normaliser.DeviceIdOf | websocket.js:31 | the device id is `deviceId` if truthy, else `device_id` if truthy, else `"esp32"`; it is always truthy |
| Normaliser.SizeSourceOf | websocket.js:32 | the size source is `lastDetectedSize`, else `detectedSize`, else `lastDetected` (first truthy), else `0` |
| Normaliser.GetSizeLabel | websocket.js:105-112 | getSizeLabel throws exactly when `String(size)` throws |
| Normaliser.SizeLabelFollowsParseInt | websocket.js:106-111 | the label is Small, Medium or Large exactly when parseInt gives 1, 2 or 3, and Unknown otherwise (including NaN) |
| Normaliser.SizeLabelOfNumber | websocket.js:105-112 | a numeric size n is Small, Medium or Large for n = 1, 2, 3 and Unknown for every other integer |
| Normaliser.SizeLabelOfText | websocket.js:105-112 | a text size is labelled by the signed decimal number at its start, after white space; trailing text is ignored |
| Normaliser.SizeLabelOfSingleton | websocket.js:105-112 | a one-element array is labelled like its element |
| Normaliser.SizeLabelOfNonNumeric | websocket.js:105-112 | booleans, `null` and plain objects are labelled Unknown |
| Normaliser.SizeLabelThrows | websocket.js:105-112 | an object with its own `toString` key, alone or in a one-element array, makes getSizeLabel throw |
| Normaliser.ReadSensors | websocket.js:35-51 | the sensor object is built by starting from all-false and overwriting fields. The result equals the nested reading when `sensors` is truthy, else the reading of each defined flat field |
| Normaliser.SensorPolarity | websocket.js:43-50 | a nested number is detected iff it is 0; a flat number is detected iff it is not 0 |
| Normaliser.SensorBooleansAndMissing | websocket.js:43-50 | booleans read the same in both shapes; a missing field is never detected |
| Normaliser.SensorsFromString | websocket.js:41-45 | a non-empty string under `sensors` reports the small sensor detected, through `String.prototype.small` |
| Normaliser.AbsentFieldsReadFalse | websocket.js:35-57 | in a built record an absent raw field reads as false: every motor when `motors` is falsy, a motor missing from a truthy `motors` value, and a sensor missing from the object its shape reads it from |
| Normaliser.MotorsExamples | websocket.js:53-57 | `{large: 1}` energises only the large motor, a string only the small one, and `0` none |
| Normaliser.Normalise | websocket.js:59-65 | building the record fails exactly when the size conversion throws; the record's id is truthy and `ledStatus` is the truthiness of `data.ledStatus` |
| Normaliser.NormaliseNestedExample | websocket.js:25-65 | the nested payload `{sensors: {small: 0, medium: 1, large: 1}, lastDetectedSize: 2}` is a report and becomes Medium, with only the small sensor detected, under id `"esp32"` |
| Normaliser.NormaliseFlatExample | websocket.js:31-65 | the flat payload `{deviceId: "esp32-1", small: true, medium: 0, detectedSize: "3"}` becomes Large, with only the small sensor detected |
| Normaliser.Classify | websocket.js:22-86 | a payload is a fault (the property read throws) exactly when it is `null`; reports and commands are objects |
| Normaliser.ClassifyPriority | websocket.js:25-76 | a payload is a report iff `deviceId` or `sensors` is truthy. It is a command iff it is not a report and `command` is truthy. A payload with only `device_id` is neither |
| Relay.Server.constructor | websocket.js:5-8 | the relay starts with no connections and no bound device, over an existing store |
| Relay.Server.SendSystemStatus | websocket.js:115-127 | the connection is sent the last stored report when the query succeeds, the store is non-empty and the connection is open; otherwise nothing is sent |
| Relay.Server.Connect | websocket.js:10-18 | a new connection is open and is not the device; its only frame is the latest report, when there is one |
| Relay.Server.BroadcastToWebClients | websocket.js:130-141 | every open connection other than the bound device gets the message appended; no other connection gets anything |
| Relay.Server.HandleReport | websocket.js:25-74 | the sender becomes the device. Only when the record is built and saved is it appended to the store and sent to every other open connection; otherwise store and frames are unchanged |
| Relay.Server.ForwardCommand | websocket.js:76-86 | a command goes to the bound device when it is open and is dropped otherwise |
| Relay.Server.Message | websocket.js:20-90 | malformed JSON, `null` and unclassified payloads change nothing; reports and commands behave as above, and the connections are unchanged |
| Relay.Server.BeginClose | websocket.js:134 | a connection leaving OPEN stays bound but receives no broadcasts or commands |
| Relay.Server.Close | websocket.js:92-98 | the connection is closed; the device slot is cleared only when it held this connection |
| Relay.ConnectWalkthrough | websocket.js:10-86 | for any command payload: two observers connect to an empty store and receive nothing, and the command, sent before any device is bound, is dropped |
| Relay.ReportStep | websocket.js:20-74 | continuing, a device report from connection 2 binds it as the device, is stored, and reaches connection 1 but not connection 2 |
| Relay.CommandStep | websocket.js:76-86 | continuing, a command from connection 1 reaches the bound device and nobody else |
| Relay.CloseStep | websocket.js:10-98 | continuing, the device closes and is unbound, the next command is dropped, and a late observer is sent the stored report |
| Relay.NestedSession | websocket.js:10-98 | the whole session with `{command: "stop"}` and the nested-sensor payload ends with both observers holding the Medium report and the closed device holding the one command sent while it was bound |

## Left out

- Logging (`console.log`/`console.error`) is not modelled: it changes no state.
- JSON text is not modelled: payloads arrive as decoded values (`Inbound`), and sent frames are values (`Outbound`), not stringified text.
- Numbers are unbounded integers. Fractions, `NaN`/`Infinity` payload values, precision loss and the exponent form that `String()` uses from 1e21 up are not modelled.
- Property reads cover the keys the relay reads. Object.prototype supplies none of them, and `String.prototype.small` is the one prototype member that matters. Other prototype members are not modelled.
- Asynchronous interleavings are not modelled. Each handler, including the awaited store query and save, runs as one atomic step. The store's query and save outcomes are the parameters `fetched` and `saved`.
- Mongoose casting is not modelled: the record keeps the raw `deviceId` where Mongoose stores a number or boolean as its text, and a cast failure (an object or array id) is folded into `saved`.
- The `timestamp` field is not modelled. The latest record is the last one appended, not the one sorted by timestamp.
- A closed connection stays in `conns` marked `Closed`; the ws library instead removes it from `wss.clients`. Neither receives frames.
- Failures of individual `send` calls are not modelled.
- `server.js`, `routes/esp32.js` and the REST routes are not part of this model.
- The per-connection `isESP32` flag is not modelled: it is written and never read.
- Normaliser.GetSizeLabel: its contract covers only when it throws. The label values are stated by the SizeLabel lemmas.
