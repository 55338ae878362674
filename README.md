# DNSSEC interference probe: drivers, socket demultiplexer and report

This project models the sequential core of a browser-extension probe that measures DNS interference. For each of seven record types (A, RRSIG, DNSKEY, SMIMEA, HTTPS and two experimental slots), the probe queries the locally configured IPv4 nameservers in two ways:

- over UDP, with resolv.conf-style retransmission (two attempts per nameserver);
- over TCP, with one connection per nameserver.

It records the raw reply and an attempt counter per record type and transport, then assembles one flat report.

The model has four modules:

- `Wrappers`: `Option` and `Result`.
- `JsRuntime`: the JavaScript built-ins the probe relies on, stated on the values it uses them for.
  - `String.fromCharCode(...bytes)`, the byte-to-string conversion of replies.
  - The character-code round trip that the source keeps as commented-out debugging code.
  - `Number.prototype.toString` of a counter, with its decimal round trip.
- `TcpSocket`: the TCP socket experiment API.
  - `concatUint8Arrays`.
  - The class `EventQueue`. It holds the closure state of `listenForEventsOnSocket`:
    - `pendingResolve` as `pending`, plus `wantDataLength`, `wantDataAndClose`, `receivedEvents` and `receivedData`;
    - the socket callbacks become handler methods;
    - the three waits become methods that settle at once, install the pending waiter, or throw;
    - a waiter settled later appears as the `Fired` result of the handler that settles it.
  - `SendDNSQuery`. It drives a real `EventQueue` over an abstract connection (`TcpPeer`: constructor error, send error, and the callbacks in order). It is proved equal to two reference functions that read the result directly off the trace:
    - `QueryOutcome`, the answer;
    - `QueryActions`, the socket actions (connect, send, close).
  - The extension's close hook `closeSocket`, both as written and as intended (see Findings).
- `DnsTest`: the measurement driver.
  - The record types and their domains.
  - `isUndefined` and `arraysMatch`.
  - `readNameservers`.
  - The response tables `udpResponses` and `tcpResponses`, as the fields of the class `Registry`. `processUDPResponse`, `sendUDPQuery` and `sendTCPQuery` are its methods.
  - The report assembly and `sendQueries` / `runMeasurement`.

  Each imperative method is proved against a specification function:

  | Method | Specification function |
  |---|---|
  | the UDP loop | `UdpFrom` |
  | the TCP loop | `TcpFrom` |
  | the report loop | `ReportUpTo` |
  | the run | `QueriesFrom` |

  Lemmas prove these properties of the functions: counters, early exits, exhaustion, the report's keys and values, and the order of driver calls.

The environment is a parameter, and the model reads it as follows:

- **Platform and nameserver readers.** `NameserverSource` holds what `getPlatformInfo` and the two readers return or throw.
- **UDP attempts.** `Environment.udpSteps` holds one `UdpStep` per attempt: either the send rejects, or these datagrams reach the receive callback during the sleep.
- **TCP connections.** `Environment.tcpPeers` holds one `TcpPeer` per connection.
- **Datagrams during the TCP phase.** `Environment.tcpPhaseDatagrams` holds the datagrams that reach the callback while that phase runs.
- **Stream encoding.** `Environment.streamEncode` is the codec's stream encoding.
- **UDP socket setup.** The exception that opening the UDP socket or registering the listener throws is a parameter of `RunMeasurement`.

In these places the model follows the code, which a reader might expect to behave otherwise:

- **Same query buffer for retransmissions.** `sendUDPQuery` encodes the query once and sends the same buffer, and so the same transaction id, on every retransmission.
- **Counter before the send.** Each attempt's counter is incremented before the send.
- **Errors propagate.** A rejected UDP send, and every exception from the TCP transport, are not recovered: `sendQueries` rethrows them and the run aborts. This covers the constructor error, the missing open event and the send error.
- **TCP stops at the first non-empty reply.** A TCP reply is stored, and the loop stops, as soon as it is non-empty. An empty reply moves on to the next nameserver.
- **`arraysMatch` on missing values.** It holds for two `undefined`s, and for two `null`s, because of its `a === b` test.
- **Unsupported platform.** It yields an empty list, and so the error "No nameservers found".

## Model

| member | source | states |
|---|---|---|
| JsRuntime.FromCharCodes | src/dns-test.js:109 | the string has one code unit per byte, each with that byte as its code |
| JsRuntime.CharCodesInvertsFromCharCodes | src/dns-test.js:136-138 | converting the reply bytes to a string and back with `charCodeAt` gives the same bytes |
| JsRuntime.FromCharCodesEmpty | src/dns-test.js:109-111 | the reply string is empty exactly when the reply has no bytes |
| JsRuntime.NatToString | src/dns-test.js:237 | `toString` of a counter is a non-empty string of decimal digits with no leading zero; one digit exactly for counters below ten |
| JsRuntime.DecimalRoundTrip | src/dns-test.js:237-239 | reading the decimal string of a counter back gives the counter |
| JsRuntime.NatToStringInjective | src/dns-test.js:237-239 | distinct counters are reported as distinct strings |
| TcpSocket.ConcatUint8Arrays | src/experiments/tcpsocket/api.js:14-19 | the result has length `|a|+|b|`, starts with the bytes of `a` and continues with those of `b` |
| TcpSocket.EventQueue.constructor | src/experiments/tcpsocket/api.js:28-32 | no waiter, no length wait, not in close mode, no queued events, no buffered data |
| TcpSocket.EventQueue.HandleGenericEvent | src/experiments/tcpsocket/api.js:33-42 | a pending waiter without a length wait is resolved with the event and cleared, and the queue is unchanged; otherwise the event is appended to the queue; nothing else changes |
| TcpSocket.EventQueue.OnClose | src/experiments/tcpsocket/api.js:47-56 | outside close mode, a close is a generic event; in close mode, a pending waiter is resolved with the buffer (`null` if none), and the waiter and close mode are cleared; the length wait and the buffer are kept |
| TcpSocket.EventQueue.OnData | src/experiments/tcpsocket/api.js:57-81 | the bytes are appended to the buffer (or become it); once a length wait is reached, the waiter is resolved with the whole buffer and buffer, length and waiter are reset; with no waiter that step is a TypeError |
| TcpSocket.EventQueue.WaitForEvent | src/experiments/tcpsocket/api.js:90-103 | with a waiter pending it throws "only one wait allowed at a time." and changes nothing; otherwise it returns the oldest queued event and removes exactly that one, or installs a waiter when the queue is empty |
| TcpSocket.EventQueue.WaitForDataWithAtLeastLength | src/experiments/tcpsocket/api.js:110-124 | with a waiter pending it throws and changes nothing; a buffer of at least `length` bytes is returned at once and cleared, with no waiter; otherwise a waiter for `length` bytes is installed and the buffer is kept |
| TcpSocket.EventQueue.WaitForAnyDataAndClose | src/experiments/tcpsocket/api.js:125-137 | with a waiter pending it throws and changes nothing; otherwise the buffer becomes empty, close mode is set and a waiter is installed |
| TcpSocket.StaleLengthWaitScenario | src/experiments/tcpsocket/api.js:36-80 | a generic event during a close-mode wait, then a length wait, a close and a data event, makes the data handler call a null `pendingResolve` |
| TcpSocket.NextEvent | src/experiments/tcpsocket/api.js:90-103 | the event that settles a first `waitForEvent` is the first non-data callback; every callback before it is data |
| TcpSocket.FirstReach | src/experiments/tcpsocket/api.js:75-80 | the callback that settles a length wait is a data callback after which the total received reaches the threshold, or the end of the trace when none does |
| TcpSocket.FirstReachIsFirst | src/experiments/tcpsocket/api.js:75-80 | no data callback before the one `FirstReach` finds brings the total to the threshold, so the wait settles at the first callback that does |
| TcpSocket.AnswerAfterOpen | src/experiments/tcpsocket/api.js:114-123 | a length wait issued after `open` resolves with at least the requested number of bytes |
| TcpSocket.AnswerAfterOpenNone | src/experiments/tcpsocket/api.js:75-123 | the wait stays unsettled exactly when fewer than the requested bytes were buffered before `open` and no data callback after it brings the total to that many |
| TcpSocket.HungMeansShortReply | src/experiments/tcpsocket/api.js:187-197 | a connection that opened and took the query never returns exactly when the peer never delivers `buf.byteLength` bytes |
| TcpSocket.QueryOutcome | src/experiments/tcpsocket/api.js:157-198 | a successful answer comes only from a connection whose first event is `open`, and holds at least as many bytes as the query sent |
| TcpSocket.QueryActions | src/experiments/tcpsocket/api.js:163-196 | a socket exists unless the constructor throws; the first action connects to the address on port 53; the query is sent exactly when the first event is `open` and the send succeeds; the socket is closed last on every exit that returns or throws after it exists, and only a wait that never settles leaves it open |
| TcpSocket.AnswerIsReceivedPrefix | src/experiments/tcpsocket/api.js:68-80 | an answer is the bytes received up to some point, in arrival order |
| TcpSocket.Deliver | src/experiments/tcpsocket/api.js:44-81 | a data callback appends to the buffer and, once a length wait's threshold is reached, settles it with the whole buffer and clears it (a wait with no pending resolver is a `TypeError`); outside close mode any event settles a pending plain wait or is appended to the event queue; only a `close` can leave close mode, and no callback enters it |
| TcpSocket.AwaitLength | src/experiments/tcpsocket/api.js:75-80 | delivering callbacks to a pending length wait resolves it with everything received up to the first data callback that reaches the threshold, and never earlier |
| TcpSocket.AwaitLengthStep | src/experiments/tcpsocket/api.js:57-81 | one callback settles a pending length wait exactly when it is the data callback that reaches the threshold; otherwise the wait stays installed with the buffer extended |
| TcpSocket.AwaitFirstEvent | src/experiments/tcpsocket/api.js:170-172 | the first non-data callback resolves the pending `waitForEvent` with its event, and the data before it stays buffered |
| TcpSocket.AwaitAnswer | src/experiments/tcpsocket/api.js:189 | the wait for `buf.byteLength` bytes after `open` resolves as `AnswerAfterOpen` says |
| TcpSocket.SendDNSQuery | src/experiments/tcpsocket/api.js:157-198 | its result and its socket actions are `QueryOutcome` and `QueryActions` of the connection: the constructor error is rethrown; another first event closes and throws "Didn't get open event for TCP socket"; a send error closes and throws "Error while sending TCP query" unless it is the concurrent-wait error, which returns the empty answer; otherwise the query is sent, at least as many bytes are awaited and the socket is closed |
| TcpSocket.CloseHookAsWritten | src/experiments/tcpsocket/api.js:141-145 | the hook as written never closes a socket, and throws exactly when there is none |
| TcpSocket.CloseHook | src/experiments/tcpsocket/api.js:141-145 | the intended hook closes the last socket exactly when there is one, and never throws |
| TcpSocket.CloseHookAsWrittenAlwaysWrong | src/experiments/tcpsocket/api.js:142 | the written guard gives the wrong effect on every input |
| DnsTest.Name | src/dns-test.js:9 | each record type has a non-empty name without `_` |
| DnsTest.NameRoundTrip | src/dns-test.js:9 | a record type is recovered from its name |
| DnsTest.IndexOf | src/dns-test.js:9 | every record type is listed in `RRTYPES` |
| DnsTest.IndexOfListed | src/dns-test.js:9 | the record type listed at a position is found at that position |
| DnsTest.RRTypesDistinct | src/dns-test.js:9 | no record type is listed twice |
| DnsTest.DomainFor | src/dns-test.js:212-221 | SMIMEA exactly uses the SMIMEA domain, HTTPS exactly uses the HTTPS domain, every other type uses the apex domain |
| DnsTest.IsUndefined | src/dns-test.js:142-144 | true exactly for `undefined` and `null` |
| DnsTest.ArraysMatch | src/dns-test.js:150-161 | true exactly when both are arrays with the same length and elements, or both are `undefined`, or both are `null` |
| DnsTest.Ipv4Filter | src/dns-test.js:182-188 | at most as many entries as given, each containing "." |
| DnsTest.Ipv4FilterAppend | src/dns-test.js:183-188 | the filter keeps entries in their original order: filtering a concatenation concatenates the filtered parts |
| DnsTest.Ipv4FilterMembers | src/dns-test.js:185 | a string is kept exactly when it is a present entry containing "." |
| DnsTest.ConfiguredNameservers | src/dns-test.js:163-196 | a reader exception propagates; a list that is not an array or is empty gives "No nameservers found"; otherwise the IPv4-looking entries are returned, or "No IPv4 nameservers found" when there are none; a success is non-empty and every entry contains "." |
| DnsTest.ReadNameservers | src/dns-test.js:163-196 | it returns `ConfiguredNameservers` of the platform: the IPv4-looking entries in order, "No nameservers found", "No IPv4 nameservers found", or the reader's exception; on success at most as many entries as were read |
| DnsTest.Table.Set | src/dns-test.js:27-41 | replacing one slot of a response table leaves the other six unchanged |
| DnsTest.ReceiveAllCounters | src/dns-test.js:127-129 | the UDP receive callback never moves a counter |
| DnsTest.ReceiveAllData | src/dns-test.js:127-129 | after a series of datagrams, each record type holds the string of its last datagram, or what it held before, whatever query the datagram answers |
| DnsTest.UdpTransmissionsStep | src/dns-test.js:82-86 | attempt `j` at nameserver `i` sends to nameserver `i` and is the next datagram of the run |
| DnsTest.TcpTransmissions | src/dns-test.js:105-108 | the connections of a TCP run: one per nameserver, in order |
| DnsTest.UdpFromAttempts | src/dns-test.js:82-100 | a UDP run makes at least one attempt when one is due, and at most `RESOLVCONF_ATTEMPTS × |nameservers|` |
| DnsTest.UdpFromCounter | src/dns-test.js:83-86 | each attempt adds exactly one to the record type's UDP counter |
| DnsTest.UdpFromOtherCounters | src/dns-test.js:85 | a UDP run leaves the counters of the other record types unchanged |
| DnsTest.UdpFromStopsEarly | src/dns-test.js:86-98 | a run ends before its last attempt only when a send rejects or the slot holds data |
| DnsTest.UdpUnansweredExhausts | src/dns-test.js:82-100 | with no reply, the run makes every attempt, adds that many to the counter, leaves the data empty and completes without error |
| DnsTest.UdpAnsweredStops | src/dns-test.js:92-98 | a non-empty reply arriving during attempt `k` ends the run right after that attempt, with the reply's string stored |
| DnsTest.TcpReplies | src/dns-test.js:105-108 | one reply per connection made |
| DnsTest.TcpRepliesAt | src/dns-test.js:108 | connection `k` ends as `sendDNSQuery` does over its peer |
| DnsTest.FirstSettled | src/dns-test.js:109-122 | the connection that ends the loop is one whose reply is not empty |
| DnsTest.FirstSettledSkipsUnanswered | src/dns-test.js:111-112 | every connection before it came back empty |
| DnsTest.TcpFromSettles | src/dns-test.js:105-125 | the loop counts every connection made and stops at the first non-empty reply or exception, leaving later nameservers untried; it stores that reply's string; when every reply is empty it tries all nameservers and the data stays unchanged; the loop ends as that connection ended |
| DnsTest.ReportKeyInjective | src/dns-test.js:233-239 | different record types or fields never share a report key, and no field key is `event` |
| DnsTest.AddRecordKeys | src/dns-test.js:235-239 | one pass adds the four keys of its record type and no other |
| DnsTest.AddRecordValues | src/dns-test.js:235-239 | one pass writes the two data strings and the decimal counters under their own keys |
| DnsTest.AddRecordKeeps | src/dns-test.js:235-239 | one pass keeps every entry outside its four keys |
| DnsTest.RecordKeyOwner | src/dns-test.js:236-239 | a field key is among the keys of a pass exactly when it belongs to that pass's record type |
| DnsTest.RecordKeyField | src/dns-test.js:236-239 | each key a pass writes is one of its record type's four fields |
| DnsTest.EventNotRecordKey | src/dns-test.js:233-239 | no pass overwrites `event` |
| DnsTest.ReportUpToKeys | src/dns-test.js:233-240 | after `i` passes, the payload has `event` and the four keys of each record type handled, and nothing else |
| DnsTest.ReportUpToEvent | src/dns-test.js:233-240 | `event` is `dnsResponses` throughout the loop |
| DnsTest.ReportUpToValues | src/dns-test.js:234-240 | after `i` passes, each key of a handled record type holds its data string or decimal counter |
| DnsTest.ReportUpToIsReport | src/dns-test.js:233-240 | the completed loop yields exactly the keys `event` and `<rr>_udp_data`, `<rr>_udp_transmission`, `<rr>_tcp_data`, `<rr>_tcp_transmission` for each record type, with the table values and the counters in decimal |
| DnsTest.RecordStepCalls | src/dns-test.js:211-227 | a pass calls the UDP driver and then, unless that threw, the TCP driver, both with the record type's domain |
| DnsTest.RecordStepUdpCounter | src/dns-test.js:213-220 | a pass adds at least one attempt (given a nameserver) and at most all of them to its UDP counter |
| DnsTest.RecordStepOtherUdpCounter | src/dns-test.js:213-220 | a pass leaves the UDP counters of other record types unchanged |
| DnsTest.RecordStepTcpCounter | src/dns-test.js:213-220 | a pass moves only its own TCP counter, only when the TCP driver is called, by at least one (given a nameserver) and at most one per nameserver |
| DnsTest.PassMentions | src/dns-test.js:211-221 | the calls of a pass mention a record type only when it is the pass's own, and its TCP call only when both drivers were called |
| DnsTest.QueriesFromCalls | src/dns-test.js:208-228 | the driver calls of a run follow the plan (UDP then TCP for each record type in order, each with its domain); a run completes only after all of them |
| DnsTest.QueriesFromLater | src/dns-test.js:209 | a run from record type `i` issues no call for a record type handled earlier |
| DnsTest.QueriesFromUdpCounter | src/dns-test.js:208-228 | over a run, a UDP counter moves only if its driver was called, and then by at least one and at most `RESOLVCONF_ATTEMPTS × |nameservers|` |
| DnsTest.QueriesFromTcpCounter | src/dns-test.js:208-228 | over a run, a TCP counter moves only if its driver was called, and then by at least one and at most `|nameservers|` |
| DnsTest.Registry.constructor | src/dns-test.js:27-41 | every slot of both tables starts with empty data and a zero counter |
| DnsTest.Registry.ProcessUDPResponse | src/dns-test.js:127-129 | the record type's UDP data is overwritten with the reply's string unconditionally; its counter, the other slots and the TCP table are unchanged |
| DnsTest.Registry.ReceiveDatagrams | src/dns-test.js:127-129 | handling a series of datagrams leaves the UDP table as `ReceiveAll` says, and the TCP table unchanged |
| DnsTest.Registry.SendUDPQuery | src/dns-test.js:77-101 | the UDP table ends as `UdpFrom` says, with one datagram per attempt to each nameserver in turn; a rejected send propagates; the TCP table is unchanged |
| DnsTest.Registry.RetransmitTo | src/dns-test.js:83-99 | the attempts at one nameserver follow `UdpFrom`, stopping on a rejection or once the slot holds data; when the loop goes on, every send went out and the UDP table is that of its `RESOLVCONF_ATTEMPTS` attempts in order (`Replay`) |
| DnsTest.Registry.UdpAttempt | src/dns-test.js:84-98 | one attempt counts, sends (a rejection is returned), lets the datagrams arrive, and then continues or stops as `UdpFrom` does; the new table is `Attempt` of the old one |
| DnsTest.Registry.SendTCPQuery | src/dns-test.js:103-125 | the TCP slot ends as `TcpFrom` over the replies of `sendDNSQuery` says, with one connection per nameserver in order; the UDP table and the other TCP slots are unchanged |
| DnsTest.Registry.TcpAttempt | src/dns-test.js:106-122 | one connection adds one to the TCP counter, queries, stores a non-empty reply, and continues or stops as `TcpFrom` does; when the loop goes on, the slot is the old one with its counter plus one |
| DnsTest.Registry.BuildReport | src/dns-test.js:232-240 | the payload is the report of the current tables |
| DnsTest.Registry.QueryRecordType | src/dns-test.js:210-227 | one pass of the loop updates the tables and issues the calls as `RecordStep` says |
| DnsTest.Registry.QueryAll | src/dns-test.js:209-228 | the loop updates the tables and issues the calls as `QueriesFrom` says; a driver that throws or never returns ends it |
| DnsTest.Registry.SendQueries | src/dns-test.js:208-243 | the tables end as `QueriesFrom` says; a completed run yields the report of the final tables, a thrown exception aborts with its message, and a call that never returns leaves no outcome |
| DnsTest.Registry.RunMeasurement | src/dns-test.js:254-266 | a nameserver error or a UDP setup error aborts before any query and leaves the tables alone; otherwise the run is `sendQueries` over the configured nameservers |

## Left out

- **Browser and extension APIs.** `getPlatformInfo`, the resolv.conf readers, UDP socket opening, sending and listener registration, and `telemetry.submitPing` are foreign calls. Their results and exceptions are parameters. Telemetry is commented out in every caller and is not modelled.
- **The `dns-packet-dev` codec.** `encode`, `decode`, `streamDecode` and the `__proto__` swapping are not modelled. `streamEncode` is a parameter of the environment. The UDP query bytes are not modelled, because nothing the model states depends on them. A decode that throws is not modelled, although the slots are written before the decode. In `sendTCPQuery` a throwing `streamDecode` would propagate out of `sendQueries` and abort the run. In `processUDPResponse` it would throw inside the response listener.
- **Transaction ids.** The random id of `Math.random` is not modelled. No id is checked anywhere.
- **Sleeps.** The effect of `sleep(RESOLVCONF_TIMEOUT)` is the set of datagrams that reach the callback during it, which is a parameter. The 5000 ms value has no counterpart.
- **Timing.** There is no timeout in the TCP path. A wait that its trace never settles is modelled as `Hung`, and a run containing one as `RunStalled`.
- **Concurrency of the UDP callback.** Datagrams are applied in batches: one batch per UDP attempt, plus one batch per record type after the TCP driver. The TCP driver never reads the UDP table, so this batching loses only the interleaving itself.
- **The `written` check.** In `sendUDPQuery` the inner `written` is tested by `if (written <= 0)`, whose body is empty, so it has no effect.
- **TCP socket internals.** The TCP socket's `readyState` is taken to be "open" right after the `open` event. The socket itself is abstracted as a `TcpPeer`.
- **`closeSocket`.** It is modelled only as a function of the last socket. Its registration with `callOnClose` and the module-level `tcp_socket` shared across calls are not modelled.
- **Logging and cleanup.** `uuidv4`, `console.log` and `cleanup` (listener removal) have no effect on the modelled state.
- **Unreachable TypeError in `SendDNSQuery`.** `sendDNSQuery` never enters close mode. So the TypeError of a null `pendingResolve` shown by `StaleLengthWaitScenario` is not reachable from it, and `SendDNSQuery` does not model that error path.
- **DnsTest.QueriesFromUdpCounter, DnsTest.QueriesFromTcpCounter: bounds only.** They bound the counters between one attempt and all of them instead of giving the exact count. The exact count per driver run is stated by `UdpFromCounter` and `TcpFromSettles`.

## Findings

| source | as written | input that shows it | evidently intended | confidence | as-written member | corrected member |
|---|---|---|---|---|---|---|
| src/experiments/tcpsocket/api.js:141-145 | `closeSocket` closes the socket only when `tcp_socket` is falsy | the context closes after a query left `tcp_socket` set: nothing is closed; it closes before any query: `undefined.close()` throws | close `tcp_socket` when it is set | high (not executed) | TcpSocket.CloseHookAsWritten, TcpSocket.CloseHookAsWrittenAlwaysWrong | TcpSocket.CloseHook |
