# SorbaMQTT-Wifi: a verified model of the connection and message logic

SorbaMQTT-Wifi is an Arduino class (`SorbaMqttWifi`) for ESP32/ESP8266 boards.
It joins a Wi-Fi network, connects to an MQTT broker with a bounded retry,
publishes a shared JSON document, and queues subscription messages. A default
callback fills that queue and the application drains it with `recvMsg`. This
project models the class's own state logic in Dafny and proves its contracts:

- `fixed_width.dfy` (`FixedWidth`): `uint16_t` and the 32-bit `unsigned long`
  of the boards. It also holds the wrap-around subtraction behind
  `timerDone()`, with the proof that the timer measures elapsed time correctly
  across a wrap of `millis()`.
- `cstrings.dfy` (`CStrings`): what `strlen` sees in a `char[]` buffer. It
  gives the bytes that `strncpy(dst, src, sizeof(dst))` and `strcpy(dst, src)`
  leave in a fixed buffer, and the methods that copy into an `array<char>`.
- `json_doc.dfy` (`JsonDoc`): the shared document reduced to top-level keys,
  each holding a scalar or an object of scalars. It has group/param packing
  and the two read paths of `msgUnpack`.
- `sub_queue.dfy` (`SubQueue`): the inbound `tSubMsg` queue of capacity
  `MQTT_QUEUE_LIMIT` (20) as a class, the default callback `defCallback` with
  its byte-by-byte payload loop, and the client's service tick. The tick hands
  each arrival to the callback.
- `retry.dfy` (`Retry`): the run of `connect()`'s loop as a function of the
  broker's answers. It gives whether the run connects and how many handshakes
  it starts.
- `sorbamqtt_wifi.dfy` (`SorbaMqtt`): the class itself. It holds the
  configuration fields with their initial values and setters, the fixed
  credential buffers as arrays, the timer, connect / check / reconnect for
  MQTT and Wi-Fi, `sendMsg`, both `recvMsg`, `parseMsg`, and pack/unpack.
- `scenarios.dfy` (`Scenarios`): concrete runs proved from the contracts
  alone:
  - three messages come back in arrival order;
  - a refusing broker with a retry limit of 2 gets two attempts;
  - a broker that accepts the third attempt connects;
  - `connect()` on a live session fails;
  - the timer fires correctly across a clock wrap;
  - a 100-character server name leaves `mqttServer` unterminated;
  - checking the Wi-Fi link twice starts the radio once;
  - a group buffer starting with NUL reads the top-level key.

The outside world is reduced to what the class observes:

- Wi-Fi link status is the field `linkUp`, and `wifiBegins` counts the calls
  of `WiFi.begin`. MQTT session status is `sessionUp`.
- `connectCalls` counts the calls of `client.connect`.
- `published` records each `client.publish` call with its topic, document and
  QoS argument.
- `doc` stands for the global `_jsDoc` and `queue` for the global
  `subMsgQueue`, owned by the single instance modelled.
- Everything the outside world decides is a parameter:
  - `outcomes[i]`: whether the broker accepts the i-th handshake of a connect;
  - `now` and `rearm`: readings of `millis()`;
  - `arrivals`: the messages delivered by a `client.loop()`;
  - `publishOk`: what `publish` returns;
  - `parse`: `deserializeJson`, a total function giving an error flag and the
    resulting document;
  - `uuid`: the generated client id.

Points worth knowing:

- `connect()` returns `false` when the session is already up, and makes no
  attempt then (`Retry.ConnectRun`, `Scenarios.ConnectWhileConnected`).
- `recvMsg(topic)` consumes the message even when its payload fails to parse.
- `strncpy` with the full buffer size leaves a source of buffer length or
  longer unterminated (`CStrings.StrncpyTerminated`).
- `msgPack` has no empty-group rule while `msgUnpack` has one, so a value
  packed under group `""` is not read back by unpacking with group `""`
  (`JsonDoc.PackUngroupedIsNotTopLevel`).

Behaviour of the code worth knowing:

- `parseMsg` does not clear the document on a parse error. The model leaves
  the document as the parser left it.
- `connectWifi(ssid, pwd)` does not truncate long credentials. It copies them
  with `strcpy`, so the model requires them to fit their buffers.
- Group and parameter names are `char[]` arguments, so the keys are what
  `strlen` sees: a group whose first byte is NUL counts as no group.
- A fresh client id is generated only by `connect(server, port, user, pwd)`.
  The plain `connect()` reuses the stored one.

## Model

| member | source | states |
|---|---|---|
| `FixedWidth.WrapSub` | src/sorbamqtt_wifi.h:348 | `now - startTime` on `unsigned long` is the difference modulo 2^32: plain difference when `now >= start`, difference plus 2^32 otherwise |
| `FixedWidth.Elapsed` | src/sorbamqtt_wifi.h:348 | the gate `nowTime - startTime >= timems`: the plain difference is compared when the reading is not below the start, and the difference plus 2^32 when the clock wrapped |
| `FixedWidth.ElapsedAcrossWrap` | src/sorbamqtt_wifi.h:346-348 | for true times less than 2^32 ms apart, the wrapping difference of the two readings is the true elapsed time, and the timer gate opens iff that time reaches the interval, also across a wrap |
| `CStrings.CStr` | src/sorbamqtt_wifi.h:220 | the string `strlen` sees is a NUL-free prefix of the buffer, followed by a NUL unless it fills the buffer |
| `CStrings.Strncpy` | src/sorbamqtt_wifi.cpp:69-75 | `strncpy(dst, src, n)` stores exactly `n` bytes: the characters of `src` before its terminator, cut at `n`, then NUL padding |
| `CStrings.StrncpyTerminated` | src/sorbamqtt_wifi.cpp:69-75 | the bounded copy leaves a terminator iff the source is shorter than the buffer, and the string read back is then the source |
| `CStrings.Strcpy` | src/sorbamqtt_wifi.cpp:206-207 | `strcpy` of a string shorter than the buffer stores the string and a NUL, leaves the rest of the buffer untouched, and reads back as the source |
| `CStrings.StrncpyInto` | src/sorbamqtt_wifi.cpp:69 | the buffer's bytes become the bounded copy of the source |
| `CStrings.StrcpyInto` | src/sorbamqtt_wifi.cpp:206 | the buffer's bytes become the unbounded copy of the source; the caller must give a string shorter than the buffer |
| `JsonDoc.Pack` | src/sorbamqtt_wifi.h:122-186 | `doc[group][param] = v` sets that one member: a missing group becomes a one-member object, an object gains or overwrites the member, a scalar group is left alone, and every other key is unchanged |
| `JsonDoc.TopLevel` | src/sorbamqtt_wifi.h:221 | `doc[param]` yields a value iff the key holds a scalar, and then exactly that scalar |
| `JsonDoc.Member` | src/sorbamqtt_wifi.h:223 | `doc[group][param]` yields a value iff the group is an object with that member, and then exactly that member |
| `JsonDoc.PackThenMember` | src/sorbamqtt_wifi.h:122-124 | after packing into a group that is missing or an object, the member reads back as the packed value |
| `JsonDoc.PackKeepsOthers` | src/sorbamqtt_wifi.h:122-186 | packing one member changes neither any other member nor any other top-level key |
| `JsonDoc.PackUngroupedIsNotTopLevel` | src/sorbamqtt_wifi.h:219-224 | a value packed under group "" is stored as member of an object named "" and is not what the empty-group unpack reads |
| `SubQueue.Chars` | src/sorbamqtt_wifi.cpp:42-44 | each payload byte becomes one character of the same code, in order |
| `SubQueue.CharsRoundTrip` | src/sorbamqtt_wifi.cpp:42-44 | no payload byte is lost or altered on the way into the queued string |
| `SubQueue.Received` | src/sorbamqtt_wifi.cpp:39-52 | the `tSubMsg` built from one arrival has the arrival's topic and one character per payload byte, with the same code, in order |
| `SubQueue.Messages` | src/sorbamqtt_wifi.cpp:33-56 | a run of arrivals adds one message per arrival, in arrival order, each the arrival's topic and payload |
| `SubQueue.MsgQueue.constructor` | src/sorbamqtt_wifi.cpp:31 | the queue starts empty with the given capacity |
| `SubQueue.MsgQueue.IsEmpty` | src/sorbamqtt_wifi.cpp:337 | true iff the queue holds no message |
| `SubQueue.MsgQueue.Enqueue` | src/sorbamqtt_wifi.cpp:55 | appends at the tail of a queue that has room |
| `SubQueue.MsgQueue.Dequeue` | src/sorbamqtt_wifi.cpp:339 | removes exactly the head and returns it |
| `SubQueue.DefCallback` | src/sorbamqtt_wifi.cpp:33-56 | appends `(topic, payload[0..length))` at the tail of the queue, the payload built byte by byte; nothing else in the queue changes |
| `SubQueue.ServiceTick` | src/sorbamqtt_wifi.cpp:335 | `client.loop()` with the default callback appends the messages of all arrivals, in order |
| `Retry.AttemptsFrom` | src/sorbamqtt_wifi.cpp:96-111 | the loop from `count` stops at the first accepted attempt, whose number it reports, or after exactly `limit` attempts, all refused |
| `Retry.ConnectRun` | src/sorbamqtt_wifi.cpp:94-113 | at most `retryLimit` attempts; success iff the session was down and some attempt within the limit is accepted, after exactly that first accepted attempt; no attempt and failure when already connected or when the limit is 0 |
| `Retry.AcceptedOnAttempt` | src/sorbamqtt_wifi.cpp:96-102 | a broker first accepting attempt k+1 within the limit gets exactly k+1 attempts and the connect succeeds |
| `Retry.RefusedEveryAttempt` | src/sorbamqtt_wifi.cpp:96-113 | a broker refusing every attempt gets exactly `retryLimit` attempts and the connect fails |
| `SorbaMqtt.SorbaMqttWifi.constructor` | src/sorbamqtt_wifi.h:366-388 | `timems` 5000, `retryLimit` 3, `mqttQoS` 0, `mqttKeepAlive` 30, `mqttSocketTimeout` 60, `mqttFloatDecimals` 2; empty user name and password; buffers of 30, 25, 100, 25, 25 and 40 bytes; an empty queue of capacity 20 |
| `SorbaMqtt.SorbaMqttWifi.SetKeepAlive` | src/sorbamqtt_wifi.h:84 | sets `mqttKeepAlive` and, by its frame, nothing else |
| `SorbaMqtt.SorbaMqttWifi.SetSocketTimeout` | src/sorbamqtt_wifi.h:86 | sets `mqttSocketTimeout` and nothing else |
| `SorbaMqtt.SorbaMqttWifi.SetRetry` | src/sorbamqtt_wifi.h:88 | sets `retryLimit` and nothing else |
| `SorbaMqtt.SorbaMqttWifi.SetQoS` | src/sorbamqtt_wifi.h:90 | sets `mqttQoS` and nothing else |
| `SorbaMqtt.SorbaMqttWifi.SetTimer` | src/sorbamqtt_wifi.h:356-358 | sets `timems` and nothing else |
| `SorbaMqtt.SorbaMqttWifi.SetFloatDecimals` | src/sorbamqtt_wifi.h:360-362 | sets `mqttFloatDecimals` and nothing else |
| `SorbaMqtt.SorbaMqttWifi.StartTimer` | src/sorbamqtt_wifi.h:342-344 | `startTime` becomes the clock reading and nothing else changes |
| `SorbaMqtt.SorbaMqttWifi.TimerDone` | src/sorbamqtt_wifi.h:346-354 | true iff the wrapping difference since `startTime` reaches `timems`; then `startTime` is the fresh reading taken by `startTimer()`, otherwise it and every other field are unchanged |
| `SorbaMqtt.SorbaMqttWifi.IsConnected` | src/sorbamqtt_wifi.cpp:131-133 | reports the session status |
| `SorbaMqtt.SorbaMqttWifi.Disconnect` | src/sorbamqtt_wifi.cpp:124-127 | the session is down afterwards |
| `SorbaMqtt.SorbaMqttWifi.Connect` | src/sorbamqtt_wifi.cpp:83-114 | returns the result of `ConnectRun` on the session status, retry limit and broker answers; makes exactly that many handshake calls; the session is up afterwards iff it was or the run succeeded; the timer is armed only on success |
| `SorbaMqtt.SorbaMqttWifi.ConnectWith` | src/sorbamqtt_wifi.cpp:67-78 | server, user name, password and the fresh client id are each copied with `strncpy` bounded by their buffer's size; the port is stored; then the effect and result of `connect()` |
| `SorbaMqtt.SorbaMqttWifi.CheckConnection` | src/sorbamqtt_wifi.cpp:137-140 | runs `connect()` only when the session is down: no attempt otherwise |
| `SorbaMqtt.SorbaMqttWifi.Reconnect` | src/sorbamqtt_wifi.cpp:145-150 | disconnects, then returns the result of a full retry run from a down session |
| `SorbaMqtt.SorbaMqttWifi.IsConnectedWifi` | src/sorbamqtt_wifi.cpp:249-251 | reports the link status |
| `SorbaMqtt.SorbaMqttWifi.ConnectWifi` | src/sorbamqtt_wifi.cpp:213-229 | calls `WiFi.begin` once and returns true, and only once the link is up |
| `SorbaMqtt.SorbaMqttWifi.ConnectWifiWith` | src/sorbamqtt_wifi.cpp:204-209 | needs an SSID shorter than 30 and a password shorter than 25 characters; copies both with `strcpy` so they read back as given, then connects the link with one `WiFi.begin` |
| `SorbaMqtt.SorbaMqttWifi.DisconnectWifi` | src/sorbamqtt_wifi.cpp:233-236 | the link is down afterwards |
| `SorbaMqtt.SorbaMqttWifi.ReconnectWifi` | src/sorbamqtt_wifi.cpp:240-245 | disconnects, calls `WiFi.begin` once and returns true with the link up |
| `SorbaMqtt.SorbaMqttWifi.CheckConnectionWifi` | src/sorbamqtt_wifi.cpp:255-258 | the link is up afterwards; `WiFi.begin` is called once when the link was down and not at all when it was up |
| `SorbaMqtt.SorbaMqttWifi.MsgInit` | src/sorbamqtt_wifi.h:118-120 | the document is empty |
| `SorbaMqtt.SorbaMqttWifi.MsgPack` | src/sorbamqtt_wifi.h:122-164 | the document becomes `Pack` of the old one with the value, under the C-string keys of the group and parameter buffers |
| `SorbaMqtt.SorbaMqttWifi.MsgPackFloat` | src/sorbamqtt_wifi.h:166-178 | stores the value rounded to `mqttFloatDecimals` places when `dec` is 0, and to `dec` places otherwise |
| `SorbaMqtt.SorbaMqttWifi.MsgUnpack` | src/sorbamqtt_wifi.h:219-332 | a group whose `strlen` is 0 reads `param` at the top level; any other group reads `group`/`param`; keys are the C strings of the buffers |
| `SorbaMqtt.SorbaMqttWifi.SendMsg` | src/sorbamqtt_wifi.cpp:305-325 | heals the link, calling `WiFi.begin` only if it was down, then the session; when the session is down afterwards it returns false and publishes nothing; otherwise it services the client, publishes the document on the topic's C string at `mqttQoS` exactly once and returns the publish result |
| `SorbaMqtt.SorbaMqttWifi.RecvMsg` | src/sorbamqtt_wifi.cpp:329-347 | both outputs start cleared; with messages pending it removes exactly the head and returns its topic and payload with true; otherwise false, empty outputs and the queue as the service tick left it |
| `SorbaMqtt.SorbaMqttWifi.RecvMsgParsed` | src/sorbamqtt_wifi.cpp:351-376 | clears topic and document; a pending head is always removed; success iff its payload parses, giving its topic and the parsed document; on a parse error or an empty queue, empty topic and document and false |
| `SorbaMqtt.SorbaMqttWifi.ParseMsg` | src/sorbamqtt_wifi.cpp:380-390 | the document is what the parser produced; true iff the parse reported no error |
| `Scenarios.ArrivalOrder` | src/sorbamqtt_wifi.cpp:329-347 | three messages queued by the callback come back in arrival order, and a fourth receive finds nothing |
| `Scenarios.RefusingBroker` | src/sorbamqtt_wifi.cpp:94-113 | retry limit 2 against a refusing broker: two attempts, failure, and a send that publishes nothing |
| `Scenarios.AcceptOnThird` | src/sorbamqtt_wifi.cpp:96-101 | with the default limit of 3, a broker accepting the third attempt connects after three attempts and arms the timer |
| `Scenarios.ConnectWhileConnected` | src/sorbamqtt_wifi.cpp:96 | a second connect on a live session fails with no attempt |
| `Scenarios.TimerAcrossWrap` | src/sorbamqtt_wifi.h:346-351 | armed 256 ms before the wrap, the timer is not due at 4999 ms and is due at 5000 ms |
| `Scenarios.WifiHealOnlyWhenDown` | src/sorbamqtt_wifi.cpp:255-258 | two link checks from a fresh object leave the link up after exactly one `WiFi.begin` |
| `Scenarios.NulGroupReadsTopLevel` | src/sorbamqtt_wifi.h:219-224 | unpacking with the group buffer `"\0x"` reads the top-level key, since its `strlen` is 0 |
| `Scenarios.LongServerName` | src/sorbamqtt_wifi.cpp:69-75 | a 100-character server name leaves `mqttServer` with no terminator; a 36-character UUID fits the client id buffer |

## Left out

- Wi-Fi radio work (`WiFi.mode`, `begin`, `status`, `disconnect`, scanning with `scanWifiNetwork`, IP/MAC printing): platform I/O; the link is the boolean `linkUp`.
- SorbaMqtt.SorbaMqttWifi.ConnectWifi: the unbounded busy-wait is not modelled; the contract gives only what holds when it returns (link up, result true), since the loop never ends while the link stays down.
- PubSubClient internals: the handshake, what `publish`, `loop` and `state()` do on the wire, `setServer`/`setKeepAlive`/`setSocketTimeout`/`setCallback` forwarding in `connect()`, and `subscribe`. Attempts and publishing are oracle answers. The third `publish` argument is recorded as given; what the client library does with it is not part of this model.
- SubQueue.ServiceTick: a `client.loop()` is modelled as delivering any given sequence of arrivals through the default callback, whatever the session status; a callback installed with `setCallback` is not modelled (function pointers).
- `state()` and `showState()`: diagnostics and `Serial` text.
- All `Serial` output and `delay` timing.
- JSON serialisation (`msgToChar`, `serializeJson`), parsing (`deserializeJson`, given as the `parse` oracle), the document's 2 KB capacity, and the typed conversions of `msgUnpack`: the model reports a missing or non-scalar value as `None`, and what each overload's conversion then yields is not modelled. `jsMsg()` (a copy of the document) and the array-packing code that is commented out in the header are not modelled.
- JsonDoc.Pack: the rule that a group holding a scalar ignores the member assignment follows the JSON library; no other library behaviour is modelled.
- `roundToDec` and the rounding in `msgUnpack(group, param, double&, dec)`: floating-point numerics; a rounded float is the symbolic value `JRounded(x, places)`.
- UUID generation: the client id is the `uuid` parameter, any string.
- SorbaMqtt.SorbaMqttWifi.MsgUnpack: the `char *value` overload copies with `strcpy` from the library's `as<const char*>()`, which is a null pointer for a missing or non-string value; that overload then dereferences a null pointer, and a long string overruns `value` with no bound. The model gives only the looked-up value.
- SubQueue.MsgQueue.Enqueue: requires room in the queue; ArduinoQueue's behaviour on a full queue is outside this code, so SubQueue.DefCallback, SubQueue.ServiceTick, SorbaMqtt.SorbaMqttWifi.RecvMsg, SorbaMqtt.SorbaMqttWifi.RecvMsgParsed and SorbaMqtt.SorbaMqttWifi.SendMsg require that the arrivals fit.
- SorbaMqtt.SorbaMqttWifi.Connect: the broker's answers are a sequence that must cover `retryLimit` attempts; the same holds for every operation built on it.
- Arduino `String` details: a NUL byte inside a payload, and allocation failure while appending.
- SorbaMqtt.SorbaMqttWifi.constructor: `startTime`, `mqttPort` and the buffers other than user name and password have no initialiser in the source; the model starts them at zero, as for an object of static storage.
- SorbaMqtt.SorbaMqttWifi.constructor: `client`, `_jsDoc` and `subMsgQueue` are globals shared by every `SorbaMqttWifi` object (src/sorbamqtt_wifi.cpp:25-31), and the constructor only installs the default callback. The model assumes a single instance that owns them: `doc`, `queue`, `sessionUp` and `linkUp` are its own fields, and the constructor's clean state is the state at start-up. Two objects sharing one document or one queue are not modelled.
