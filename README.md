# Daisyway in Dafny

Daisyway feeds keys from quantum key distribution (QKD) devices into
WireGuard. Each end of a WireGuard tunnel runs one Daisyway peer.

A rekey runs between the two peers:
- The TCP **server** asks its QKD device (an ETSI GS QKD 014 key management
  entity) for a new key with `enc_keys`.
- It sends the key's id and a random nonce to the TCP **client**.
- The client fetches the key of that id from its own device with `dec_keys`
  and acknowledges with one byte.
- Both ends derive the output key by hashing the PSK, the nonce, the QKD key,
  its id and the sorted pair of WireGuard public keys.

Each derived key goes to an output-key handler. A *deadman* wraps that
handler: it erases the key when no fresh one arrives in time. On the server,
a *connection manager* decides which TCP connection's keys count. The
*simulator* is a stand-in QKD device for tests.

The model has one Dafny module per source file:

- `Crypto`: `crypto/basics.rs`, pure functions on byte strings.
- `ServerProtocol` and `ClientProtocol`: `crypto/server.rs` and `crypto/client.rs`, classes over a stream, an ETSI connection and an output handler.
- `Etsi014`: `etsi014.rs`, pure conversions plus a connection class.
- `ConnectionManager`: `net/tcp_server/connection_manager.rs`, a class with mutable bookkeeping.
- `Events`: `net/tcp_server/events.rs`, event conversion.
- `TcpParticipant`: `net/tcp_participant.rs`, role selection.
- `Setup`: `daisyway/setup.rs`, start-up configuration.
- `Util`: `util.rs`, the bounded read loop and Base64 key loading.
- `Osk`: `osk/mod.rs`, output-key handlers.
- `Deadman`: `osk/deadman.rs`, the deadman front end and worker.
- `Simulator`: `simulator/src/main.rs`, the QKD simulator.

Support modules:
- `Bytes`: bytes, keys, ASCII and byte order.
- `Uuids`: the parts of the `uuid` crate used.
- `Foreign`: hashing, Base64 and UUID parsing as function parameters.
- `Streams`: `read_exact` and `write_all` on a byte stream.
- `Errors` and `Wrappers`.

How each kind of code is modelled:
- **Loops that change state** are `method`s with loop invariants. Each method
  is proved against a pure function of the old state: `ServerRounds`,
  `ClientRounds`, `Run`, `Planned`, `ReadUpTo` and `Route`. The properties
  are then lemmas about those functions.
- **Endless loops** (`loop { … }`) run over a finite list of inputs: nonces,
  wake-ups or worker events.
- **Randomness** is a parameter: the nonce of `RekeyReq::new` and the random
  key of `erase_stale_osk`.
- **I/O** is scripted input. The device's HTTP answers are `device`. The
  stream's inbound bytes are `inbound`. The output handler's accept/reject
  answers are `outcomes`. The pieces a file gives to `read` are `script`.
  Start-up's files, TLS client build and WireGuard set-up are an
  `Environment`.
- **Panics** (`assert!`, `unwrap`, `expect`) become `Err(Panic)`.
- **`anyhow` errors** become one `Error` constructor per cause.

## Model

| member | source | states |
|---|---|---|
| Bytes.ZeroKey | daisyway/src/internal/daisyway/setup.rs:77-80 | the PSK used without a PSK file is 32 zero bytes |
| Bytes.Ascii | daisyway/src/internal/daisyway/setup.rs:82-83 | `as_bytes` of a configured key text: one byte per character, in order |
| Bytes.LexLeTotal | daisyway/src/internal/daisyway/crypto/basics.rs:57 | the byte order `sort` uses relates any two public keys |
| Bytes.LexLeAntisymmetric | daisyway/src/internal/daisyway/crypto/basics.rs:57 | two keys each ordered before the other are equal, so the sorted pair is unique |
| Uuids.ToBytesLeInvolution | daisyway/src/internal/daisyway/crypto/basics.rs:87 | `to_bytes_le` swapped twice gives the UUID back |
| Uuids.ToBytesLeInjective | daisyway/src/internal/daisyway/crypto/basics.rs:87 | distinct key ids enter the KDF as distinct bytes |
| Uuids.BigEndianRoundTrip | simulator/src/main.rs:117 | the 16 big-endian bytes of `from_u128(n)` read back as `n` |
| Uuids.FromU128Injective | simulator/src/main.rs:117 | distinct counter values give distinct UUIDs |
| Uuids.ToBytesLe | daisyway/src/internal/daisyway/crypto/basics.rs:87 | `to_bytes_le`: the first three fields byte-swapped, the last 8 bytes kept; `ToBytesLeInvolution` shows it loses nothing |
| Uuids.FromU128 | simulator/src/main.rs:117 | `from_u128`: the 16 big-endian bytes of a number below 2^128; `BigEndianRoundTrip` reads them back |
| Uuids.Text | daisyway/src/internal/etsi014.rs:280-284 | the hyphenated `Display` form of an id is 36 characters |
| Uuids.UnhexHex | daisyway/src/internal/etsi014.rs:280-284 | lower-case hex digits read back as the bytes they were written from |
| Uuids.TextRoundTrip | daisyway/src/internal/etsi014.rs:280-284 | an id's hyphenated text determines the id |
| Uuids.TextInjective | daisyway/src/internal/etsi014.rs:280-284 | distinct ids are written as distinct texts in `dec_keys` requests |
| Foreign.EncodedKeyLength | daisyway/src/internal/daisyway/crypto/basics.rs:12 | a 32-byte key is 44 Base64 characters, which fits the `KEY_LENGTH_B64` (46) buffer |
| Foreign.EncodedLenIs32 | daisyway/src/internal/etsi014.rs:138 | the `assert!` on `encoded_len` of the key text fails exactly for texts of 22 to 24 characters |
| Etsi014.Empty | daisyway/src/internal/etsi014.rs:124-131 | the empty key has the nil id and an all-zero key |
| Etsi014.DecodeInto | daisyway/src/internal/etsi014.rs:139-140 | decoding into a 32-byte buffer succeeds iff the text decodes to at most 32 bytes, and gives those bytes |
| Etsi014.KeyFromResponseKey | daisyway/src/internal/etsi014.rs:133-146 | panics iff the length assertion fails or decoding fails; succeeds iff exactly 32 bytes decode, keeping the id; a shorter key gives a length error |
| Etsi014.KeyFromEncodedKey | daisyway/src/internal/etsi014.rs:133-146 | a container element with a key's Base64 text converts back to that key and id |
| Etsi014.KeyFromResponseKeys | daisyway/src/internal/etsi014.rs:161-172 | exactly one key is accepted and converted; any other count is an error naming the count |
| Etsi014.KeyFromHttp | daisyway/src/internal/etsi014.rs:289-305 | transport failure, non-success status and a non-JSON body are errors; success iff a 2xx answer holds a convertible container |
| Etsi014.StatusDecidesBeforeBody | daisyway/src/internal/etsi014.rs:292-301 | a non-success answer is an error whatever its body |
| Etsi014.EncKeysUriRendered | daisyway/src/internal/etsi014.rs:271-278 | `fetch_any_key` requests `<url>/api/v1/keys/<sae>/enc_keys?number=1&key_length=256` |
| Etsi014.DecKeysUriRendered | daisyway/src/internal/etsi014.rs:280-287 | `fetch_specific_key` requests `<url>/api/v1/keys/<sae>/dec_keys?key_ID=<id>` |
| Etsi014.DecKeysUriInjective | daisyway/src/internal/etsi014.rs:280-287 | distinct key ids give distinct `dec_keys` targets |
| Etsi014.EncKeysUri | daisyway/src/internal/etsi014.rs:271-278 | the `enc_keys` target of `fetch_any_key`, as rendered by `EncKeysUriRendered` |
| Etsi014.DecKeysUri | daisyway/src/internal/etsi014.rs:280-287 | the `dec_keys` target of `fetch_specific_key`, naming the id by its text, as rendered by `DecKeysUriRendered` |
| Etsi014.VerifyServerCertIgnoringName | daisyway/src/internal/etsi014.rs:39-75 | a certificate is accepted iff the inner verifier accepts it or rejects it only for its name; every other verdict is passed on unchanged |
| Etsi014.Etsi014Connection.constructor | daisyway/src/internal/etsi014.rs:182-188 | keeps the URL and remote SAE id |
| Etsi014.Etsi014Connection.FetchKeyInternal | daisyway/src/internal/etsi014.rs:289-305 | one request, recorded; consumes one device answer; the result is `KeyFromHttp` of that answer |
| Etsi014.Etsi014Connection.FetchAnyKey | daisyway/src/internal/etsi014.rs:271-278 | requests the `enc_keys` target |
| Etsi014.Etsi014Connection.FetchSpecificKey | daisyway/src/internal/etsi014.rs:280-287 | requests the `dec_keys` target of the given id |
| Crypto.NewWireGuardConnectionId | daisyway/src/internal/daisyway/crypto/basics.rs:55-63 | the connection id holds the two public keys, smaller first |
| Crypto.ConnectionIdSymmetric | daisyway/src/internal/daisyway/crypto/basics.rs:56-57 | both ends of a tunnel compute the same connection id |
| Crypto.KdfInputBytes | daisyway/src/internal/daisyway/crypto/basics.rs:65-74 | the packed KDF input is 176 bytes |
| Crypto.RootDomain | daisyway/src/internal/daisyway/crypto/basics.rs:22-28 | `ProtocolDomains::root()`: the zero domain mixed with the protocol label |
| Crypto.DeriveKeyDomain | daisyway/src/internal/daisyway/crypto/basics.rs:30-32 | `ProtocolDomains::derive_key()`: the root domain mixed with "derive key" |
| Crypto.NewKdfInput | daisyway/src/internal/daisyway/crypto/basics.rs:76-95 | `KdfInput::new`: PSK, nonce, QKD key, the id in little-endian form and the connection id; the id can be read back from its bytes |
| Crypto.KdfInputLayout | daisyway/src/internal/daisyway/crypto/basics.rs:65-95 | every field of the packed input can be read back at its offset |
| Crypto.KdfInputDeterminesInputs | daisyway/src/internal/daisyway/crypto/basics.rs:76-95 | equal KDF bytes mean equal PSK, nonce, QKD key and id, and the same unordered key pair |
| Crypto.DeriveDependsOnUnorderedPair | daisyway/src/internal/daisyway/crypto/basics.rs:98-108 | the derived key depends on the public keys only as an unordered pair |
| Crypto.DeriveDaisywayKey | daisyway/src/internal/daisyway/crypto/basics.rs:98-108 | `derive_daisyway_key`: the hash, under the derive-key domain, of the packed KDF input of the PSK, the nonce, the QKD key and the sorted public keys |
| Crypto.PeersDeriveSameKey | daisyway/src/internal/daisyway/crypto/basics.rs:98-108 | two ends with the same PSK and each other's key as remote derive the same key from the same nonce and QKD key |
| Crypto.RekeyReqBytes | daisyway/src/internal/daisyway/crypto/basics.rs:110-115 | the request is 48 bytes: the 16 id bytes, then the 32 nonce bytes |
| Crypto.RekeyReqRoundTrip | daisyway/src/internal/daisyway/crypto/basics.rs:110-115 | a request read back from its bytes is the request sent |
| Crypto.RekeyReqBytesRoundTrip | daisyway/src/internal/daisyway/crypto/basics.rs:110-115 | any 48 bytes are the wire form of the request read from them |
| Crypto.NewRekeyReq | daisyway/src/internal/daisyway/crypto/basics.rs:117-122 | the request carries the given id and the drawn nonce |
| Crypto.RekeyAckBytes | daisyway/src/internal/daisyway/crypto/basics.rs:124-128 | the acknowledgement is one byte |
| Crypto.ValidateAck | daisyway/src/internal/daisyway/crypto/basics.rs:130-140 | valid iff the byte is 1; otherwise an error naming the byte |
| Streams.ReadExactSpec | daisyway/src/internal/daisyway/crypto/client.rs:50-54 | `read_exact` of n bytes succeeds iff n bytes are there and takes exactly those; otherwise it ends at end-of-stream |
| Streams.WriteAllSpec | daisyway/src/internal/daisyway/crypto/server.rs:62-65 | `write_all` appends everything iff the peer accepts data, else it is a broken pipe |
| Streams.Stream.ReadExact | daisyway/src/internal/daisyway/crypto/server.rs:67-73 | fills the buffer byte by byte as `ReadExactSpec` says |
| Streams.Stream.WriteAll | daisyway/src/internal/daisyway/crypto/server.rs:62-65 | changes the stream as `WriteAllSpec` says |
| ServerProtocol.ServerStepSpec | daisyway/src/internal/daisyway/crypto/server.rs:52-76 | a key results iff the device gave a key, the request was written and the peer answered 1; it is the derivation from that nonce and key; each failure has its cause |
| ServerProtocol.ServerStep | daisyway/src/internal/daisyway/crypto/server.rs:52-76 | `negotiate_key` on the device answer and the stream: no write after a device error, then the request, the ack read and check, the derivation; its meaning is `ServerStepSpec` |
| ServerProtocol.ServerRound | daisyway/src/internal/daisyway/crypto/server.rs:44-50 | one pass of `event_loop`: fetch, negotiate, hand the key to the handler; a failed run stays as it is |
| ServerProtocol.ServerRounds | daisyway/src/internal/daisyway/crypto/server.rs:44-50 | one `ServerRound` per nonce, in order |
| ServerProtocol.ServerRoundFacts | daisyway/src/internal/daisyway/crypto/server.rs:44-50 | one round requests one `enc_keys` key and hands out at most one derived key; nothing happens after a failure |
| ServerProtocol.ServerFailureEndsLoop | daisyway/src/internal/daisyway/crypto/server.rs:44-50 | once a round fails, later rounds change nothing |
| ServerProtocol.ServerRoundKeepsKeysDerived | daisyway/src/internal/daisyway/crypto/server.rs:44-76 | a round keeps "every handed-out key is the derivation of its round's nonce and device key" |
| ServerProtocol.ServerRoundKeepsKeysRequested | daisyway/src/internal/daisyway/crypto/server.rs:53-57 | a round keeps "one `enc_keys` request per round attempted" |
| ServerProtocol.ServerRoundsKeys | daisyway/src/internal/daisyway/crypto/server.rs:44-76 | over any number of rounds, the handed-out keys are the derivations round by round, one `enc_keys` request per attempt, and every round runs unless one fails |
| ServerProtocol.DaisywayServerProtocol.constructor | daisyway/src/internal/daisyway/crypto/server.rs:28-42 | keeps parameters, stream, ETSI client, output handler and interval |
| ServerProtocol.DaisywayServerProtocol.NegotiateKey | daisyway/src/internal/daisyway/crypto/server.rs:52-76 | result and stream as `ServerStep`, after one `enc_keys` request |
| ServerProtocol.DaisywayServerProtocol.Round | daisyway/src/internal/daisyway/crypto/server.rs:46-47 | one round as `ServerRound`; the output handler gains exactly the fresh key on success |
| ServerProtocol.DaisywayServerProtocol.EventLoop | daisyway/src/internal/daisyway/crypto/server.rs:44-50 | the loop is `ServerRounds`; it stops at the first error with that error; the handler receives every key as fresh, in order |
| ClientProtocol.ClientStepSpec | daisyway/src/internal/daisyway/crypto/client.rs:49-71 | exactly one 48-byte request is read; a short read fails before any fetch; the ack byte 1 is written only after the device key; the key uses the request's nonce |
| ClientProtocol.ClientStep | daisyway/src/internal/daisyway/crypto/client.rs:49-71 | `wait_for_key_negotiation` on the device answer and the stream: read 48 bytes, fetch the named key, write the ack, derive; its meaning is `ClientStepSpec` |
| ClientProtocol.ClientRound | daisyway/src/internal/daisyway/crypto/client.rs:42-47 | one pass of `event_loop`: negotiate, hand the key to the handler; a failed run stays as it is |
| ClientProtocol.ClientRounds | daisyway/src/internal/daisyway/crypto/client.rs:42-47 | `n` successive `ClientRound`s |
| ClientProtocol.RekeyAgreement | daisyway/src/internal/daisyway/crypto/client.rs:49-71 | with matching parameters and one shared QKD key, the client asks for the server's key id and both derive the same key |
| ClientProtocol.ClientRoundFacts | daisyway/src/internal/daisyway/crypto/client.rs:42-47 | one round reads one request, asks for its key id and hands out at most one derived key; nothing happens after a failure |
| ClientProtocol.ClientFailureEndsLoop | daisyway/src/internal/daisyway/crypto/client.rs:42-47 | once a round fails, later rounds change nothing |
| ClientProtocol.ClientRoundKeepsKeysDerived | daisyway/src/internal/daisyway/crypto/client.rs:49-71 | a round keeps "every key is the derivation of its request's nonce and the device key" |
| ClientProtocol.ClientRoundKeepsKeysRequested | daisyway/src/internal/daisyway/crypto/client.rs:57-61 | a round keeps "the device was asked for exactly the ids the requests named, in order" |
| ClientProtocol.ClientRoundsKeys | daisyway/src/internal/daisyway/crypto/client.rs:42-71 | over n rounds, keys are derived from the received nonces and fetched keys, the ids asked for are the ids received, and all rounds run unless one fails |
| ClientProtocol.DaisywayClientProtocol.constructor | daisyway/src/internal/daisyway/crypto/client.rs:28-40 | keeps parameters, stream, ETSI client and output handler |
| ClientProtocol.DaisywayClientProtocol.WaitForKeyNegotiation | daisyway/src/internal/daisyway/crypto/client.rs:49-71 | result and stream as `ClientStep`; the device is asked for the named key only after a full read |
| ClientProtocol.DaisywayClientProtocol.Round | daisyway/src/internal/daisyway/crypto/client.rs:44-45 | one round as `ClientRound`; the handler gains exactly the fresh key on success |
| ClientProtocol.DaisywayClientProtocol.EventLoop | daisyway/src/internal/daisyway/crypto/client.rs:42-47 | the loop is `ClientRounds`; it stops at the first error; every key goes to the handler as fresh |
| Osk.ReasonOrder | daisyway/src/internal/osk/mod.rs:22-28 | the derived order puts `Fresh` before `Stale` |
| Osk.OskHandler.SetOsk | daisyway/src/internal/osk/mod.rs:30-31 | an accepted call records the key and reason; a rejected one records nothing |
| Osk.FreshCalls | daisyway/src/internal/osk/mod.rs:32-34 | the `set_fresh_osk` calls for a sequence of keys: one call per key, in order, each with reason `Fresh` |
| Osk.OskHandler.SetFreshOsk | daisyway/src/internal/osk/mod.rs:32-34 | is `set_osk(key, Fresh)` |
| Osk.OskHandler.EraseStaleOsk | daisyway/src/internal/osk/mod.rs:35-38 | is `set_osk(random, Stale)` |
| Events.FromHandlerEvent | daisyway/src/internal/daisyway/net/tcp_server/events.rs:34-43 | a handler event becomes the same exit or key event, never an accept |
| Events.FromHandlerEventInjective | daisyway/src/internal/daisyway/net/tcp_server/events.rs:34-43 | the conversion loses nothing |
| ConnectionManager.InitialInv | daisyway/src/internal/daisyway/net/tcp_server/connection_manager.rs:54-56 | the empty start state satisfies the bookkeeping invariant |
| ConnectionManager.MinOf | daisyway/src/internal/daisyway/net/tcp_server/connection_manager.rs:96-101 | `pop_first` takes the smallest budding id |
| ConnectionManager.AcceptStepSpec | daisyway/src/internal/daisyway/net/tcp_server/connection_manager.rs:88-119 | a new connection gets a never-used id and is budding; when 2000 are budding, only the oldest is pruned; the invariant is kept |
| ConnectionManager.AcceptStep | daisyway/src/internal/daisyway/net/tcp_server/connection_manager.rs:88-119 | `on_accept` on the bookkeeping: allocate the next id, prune the oldest budding connection when 2000 are budding, add the new one as budding |
| ConnectionManager.ExitStepSpec | daisyway/src/internal/daisyway/net/tcp_server/connection_manager.rs:121-136 | the exited connection is neither active nor budding afterwards; nothing else changes |
| ConnectionManager.ExitStep | daisyway/src/internal/daisyway/net/tcp_server/connection_manager.rs:121-136 | `on_exit` on the bookkeeping: the id stops being active and budding |
| ConnectionManager.LifecycleOf | daisyway/src/internal/daisyway/net/tcp_server/connection_manager.rs:141-145 | older iff below the active id; current iff the active id; newer otherwise or without an active connection |
| ConnectionManager.OskStepSpec | daisyway/src/internal/daisyway/net/tcp_server/connection_manager.rs:138-204 | a key is forwarded iff it comes from the active or a budding connection; a budding sender becomes active and older budding connections are dropped; the invariant is kept |
| ConnectionManager.OskStep | daisyway/src/internal/daisyway/net/tcp_server/connection_manager.rs:138-204 | `on_osk` on the bookkeeping: drop an older key, forward the active one, promote a budding sender and drop older budding connections |
| ConnectionManager.StaleKeysDiscarded | daisyway/src/internal/daisyway/net/tcp_server/connection_manager.rs:157-161 | a key from a connection older than the active one changes nothing and is not forwarded |
| ConnectionManager.EventStep | daisyway/src/internal/daisyway/net/tcp_server/connection_manager.rs:79-86 | `on_event`: an accept, an exit or a key event is handled by its step, and only a key event can be forwarded |
| ConnectionManager.Run | daisyway/src/internal/daisyway/net/tcp_server/connection_manager.rs:61-86 | the bookkeeping after a sequence of events and the key events forwarded, in order |
| ConnectionManager.RunInv | daisyway/src/internal/daisyway/net/tcp_server/connection_manager.rs:61-86 | every run of events keeps the bookkeeping invariant |
| ConnectionManager.RunNotBefore | daisyway/src/internal/daisyway/net/tcp_server/connection_manager.rs:138-204 | once a run has reached connection x, no later forwarded key comes from a connection older than x |
| ConnectionManager.ForwardedIdsNonDecreasing | daisyway/src/internal/daisyway/net/tcp_server/connection_manager.rs:138-204 | the output handler receives keys from ever newer (or the same) connections |
| ConnectionManager.ConnectionManager.constructor | daisyway/src/internal/daisyway/net/tcp_server/connection_manager.rs:36-59 | no connection yet, ids start at 0 |
| ConnectionManager.ConnectionManager.AllocateConnectionId | daisyway/src/internal/daisyway/net/tcp_server/connection_manager.rs:212-216 | returns the next id and increments it |
| ConnectionManager.ConnectionManager.OnAccept | daisyway/src/internal/daisyway/net/tcp_server/connection_manager.rs:88-119 | state as `AcceptStep`, keeping the invariant |
| ConnectionManager.ConnectionManager.OnExit | daisyway/src/internal/daisyway/net/tcp_server/connection_manager.rs:121-136 | state as `ExitStep`, keeping the invariant |
| ConnectionManager.ConnectionManager.OnOsk | daisyway/src/internal/daisyway/net/tcp_server/connection_manager.rs:138-204 | state as `OskStep`; exactly the forwarded key reaches the handler, whose verdict is the result |
| ConnectionManager.ConnectionManager.OnEvent | daisyway/src/internal/daisyway/net/tcp_server/connection_manager.rs:79-86 | dispatches to the three handlers as `EventStep` |
| ConnectionManager.ConnectionManager.OnWakeup | daisyway/src/internal/daisyway/net/tcp_server/connection_manager.rs:62-75 | a failed accept and a closed queue are errors that change nothing; otherwise the event is handled |
| ConnectionManager.ConnectionManager.Take | daisyway/src/internal/daisyway/net/tcp_server/connection_manager.rs:62-75 | one wake-up extends the trace of the run by the event it delivers |
| ConnectionManager.ConnectionManager.EventLoop | daisyway/src/internal/daisyway/net/tcp_server/connection_manager.rs:61-77 | the state is `Run` of the events delivered; the handler got exactly the forwarded keys; the loop stops at the first failure with its cause |
| Deadman.CallFor | daisyway/src/internal/osk/deadman.rs:105-119 | a request is forwarded as is; a close or timeout erases with a random stale key |
| Deadman.PlannedPointwise | daisyway/src/internal/osk/deadman.rs:102-120 | the worker makes one broker call per event, in order, up to the close |
| Deadman.Planned | daisyway/src/internal/osk/deadman.rs:102-120 | the broker calls of the loop: one per event, up to and including the first close |
| Deadman.Schedule | daisyway/src/internal/osk/deadman.rs:97-121 | every broker call of `event_loop`: the erase at start-up, then `Planned` |
| Deadman.PlannedStopsAtClose | daisyway/src/internal/osk/deadman.rs:110-114 | nothing after the first close reaches the broker; the close erases |
| Deadman.ClosedEndsWithErase | daisyway/src/internal/osk/deadman.rs:110-114 | when the queue closes, the last broker call erases the key |
| Deadman.FreshCallsAreForwarded | daisyway/src/internal/osk/deadman.rs:105-109 | the worker never makes up a fresh key: every fresh call forwards a received request |
| Deadman.OskDeadman.constructor | daisyway/src/internal/osk/deadman.rs:30-38 | a new front end has an empty queue and a running worker |
| Deadman.OskDeadman.SetOsk | daisyway/src/internal/osk/deadman.rs:40-52 | only queues the request; fails iff the worker is gone |
| Deadman.DeadmanWorker.constructor | daisyway/src/internal/osk/deadman.rs:68-78 | keeps the broker; `erase_after` only bounds each wait, which is a `TimedOut` event here |
| Deadman.DeadmanWorker.Handle | daisyway/src/internal/osk/deadman.rs:105-119 | one event makes the broker call `CallFor` |
| Deadman.DeadmanWorker.Serve | daisyway/src/internal/osk/deadman.rs:101-120 | the loop makes the planned calls in order and stops at the close or the first failure |
| Deadman.DeadmanWorker.EventLoop | daisyway/src/internal/osk/deadman.rs:97-121 | erases first, then forwards the plan; the broker records exactly the accepted prefix of the schedule; finished iff the queue closed with no failure |
| Util.ReadStep | daisyway/src/internal/util.rs:21 | one `read` never returns more than the room left |
| Util.ReadUpTo | daisyway/src/internal/util.rs:11-30 | reads at most the buffer size; an `Interrupted` error is never reported |
| Util.ReadUpToReadsAvailable | daisyway/src/internal/util.rs:11-30 | the result is the first `cap` bytes available, or else the first non-interrupt error, or else all bytes up to end-of-file |
| Util.Reader.Read | daisyway/src/internal/util.rs:21-26 | copies one chunk into the buffer as `ReadStep` says |
| Util.Reader.ReadToEndUpTo | daisyway/src/internal/util.rs:11-30 | the buffer's first n bytes and the file left are as `ReadUpTo`; errors other than `Interrupted` end the read |
| Util.Base64ToKey | daisyway/src/internal/util.rs:43-47 | succeeds iff the text decodes to at most 32 bytes, which become the key's first bytes, zero-padded |
| Util.Base64KeyRoundTrip | daisyway/src/internal/util.rs:43-47 | a key's Base64 text decodes back to the key |
| Util.TrimTrailingNewlineSpec | daisyway/src/internal/util.rs:52-56 | one final newline is removed and nothing else |
| Util.TrimTrailingNewline | daisyway/src/internal/util.rs:52-56 | drops one trailing newline byte if there is one; its meaning is `TrimTrailingNewlineSpec` |
| Util.LoadBase64Key | daisyway/src/internal/util.rs:49-58 | `load_base64_key_file` after the open: read at most 46 bytes, trim one newline, decode; an I/O error is passed on |
| Util.LoadBase64KeyRoundTrip | daisyway/src/internal/util.rs:49-58 | a file holding a key's Base64 text, with or without a final newline, loads as that key |
| Util.LoadBase64KeyFile | daisyway/src/internal/util.rs:49-58 | a file that cannot be opened is an I/O error; otherwise the result is `LoadBase64Key` of its contents |
| TcpParticipant.FromConfig | daisyway/src/internal/daisyway/net/tcp_participant.rs:32-58 | the configured role decides client or server; the address, parameters, ETSI client and handler are passed on; the server takes the interval |
| TcpParticipant.ConfiguredEventLoop | daisyway/src/internal/daisyway/net/tcp_participant.rs:66-71 | a configured participant runs the loop of its role with the configured values, never the other |
| TcpParticipant.EventLoop | daisyway/src/internal/daisyway/net/tcp_participant.rs:66-71 | `event_loop`: runs the loop of the variant the participant is |
| Setup.FromConfigSucceeds | daisyway/src/internal/daisyway/setup.rs:65-140 | start-up succeeds iff the PSK loads, both public keys decode, the TLS client builds and exactly one key output is usable (WireGuard only on Linux with a working handler) |
| Setup.RekeyIntervalOf | daisyway/src/internal/daisyway/setup.rs:66 | `interval_secs`, or 120 seconds when it is not set |
| Setup.LoadPsk | daisyway/src/internal/daisyway/setup.rs:69-80 | the PSK: loaded from `psk_file` when one is given (a missing or bad file is an error), 32 zero bytes otherwise |
| Setup.KeyOutputOf | daisyway/src/internal/daisyway/setup.rs:106-129 | the key output: an error for neither or both, the outfile handler, or the WireGuard handler only on Linux and when it can be set up |
| Setup.StartDeadman | daisyway/src/internal/daisyway/setup.rs:147-152 | `start_deadman`: the output behind a deadman that erases after the interval plus 30 seconds |
| Setup.FromConfig | daisyway/src/internal/daisyway/setup.rs:65-140 | `from_config`: interval, PSK, both peer ids, TLS client, key output, participant, in this order; the first failure is the result |
| Setup.KeyOutputMustBeUnique | daisyway/src/internal/daisyway/setup.rs:106-108 | neither or both outputs configured is an error, reported as such once the earlier steps pass |
| Setup.WireGuardOnlyOnLinux | daisyway/src/internal/daisyway/setup.rs:113-116 | a WireGuard-only output is refused off Linux |
| Setup.FromConfigBuilds | daisyway/src/internal/daisyway/setup.rs:65-139 | the participant has the configured role, the loaded or zero PSK and the decoded keys; the interval defaults to 120; the deadman erases after interval + 30 s; the output is the configured one |
| Setup.PskFromFile | daisyway/src/internal/daisyway/setup.rs:69-80 | a PSK file holding a key's Base64 text gives that key |
| Simulator.CounterFitsUuid | simulator/src/main.rs:117 | every `u64` counter value fits `from_u128` |
| Simulator.FindFrom | simulator/src/main.rs:95 | `find` gives the first occurrence, or none |
| Simulator.ContainsSpec | simulator/src/main.rs:87 | `contains` holds iff the text occurs somewhere |
| Simulator.KeyMaterial | simulator/src/main.rs:120-123 | the key is the id's 16 bytes twice |
| Simulator.IdOf | simulator/src/main.rs:113-118 | the id `enc_keys` issues for a counter value: `from_u128` of the counter, whose big-endian value is the counter |
| Simulator.ChooseKeyId | simulator/src/main.rs:92-118 | `dec_keys` wins when the path names both; its query must hold `key_ID=` followed by a parsable UUID, else a 400 reply; otherwise a new id is issued |
| Simulator.Route | simulator/src/main.rs:46-143 | `handle_request` with `handle_keys`: the reply and the new counter; its meaning is `RouteSpec` |
| Simulator.RouteSpec | simulator/src/main.rs:46-143 | 404 outside `/api/v1/keys/`; 400 for neither operation or a bad `dec_keys` query; 200 with exactly one key otherwise; only a successful `enc_keys` moves the counter, by one mod 2^64 |
| Simulator.DecKeysReturnsIssuedKey | simulator/src/main.rs:92-112 | a query naming an id after its first `key_ID=` is answered with that id's key and leaves the counter |
| Simulator.KeyReplyReadByPeer | simulator/src/main.rs:125-132 | a Daisyway peer reads the reply as the id and its material |
| Simulator.EncKeysRequestIssues | simulator/src/main.rs:113-118 | Daisyway's `enc_keys` request gets the counter's id and moves the counter by one |
| Simulator.DecKeysRequestReturns | simulator/src/main.rs:92-112 | Daisyway's `dec_keys` request for an id gets that id's key |
| Simulator.PeersShareKeyThroughSimulator | simulator/src/main.rs:80-143 | the key the server's `enc_keys` gets is the key the client's later `dec_keys` gets |
| Simulator.IssuedIdsDistinct | simulator/src/main.rs:113-118 | fewer than 2^64 successive `enc_keys` requests issue distinct ids, even across the wrap-around |
| Simulator.IdOfInjective | simulator/src/main.rs:117 | distinct counter values are distinct ids |
| Simulator.Startup | simulator/src/main.rs:194-213 | a certificate path without a key path, or the reverse, is an error; with both, TLS; with neither, plain HTTP |
| Simulator.KeySimulator.constructor | simulator/src/main.rs:201 | the counter starts at 1 |
| Simulator.KeySimulator.FetchAdd | simulator/src/main.rs:114 | returns the old counter and increments it mod 2^64 |
| Simulator.KeySimulator.HandleKeys | simulator/src/main.rs:80-143 | reply and new counter as `Route`; the key input holds the id twice |
| Simulator.KeySimulator.HandleRequest | simulator/src/main.rs:46-66 | reply and new counter as `Route` |

## Left out

- Hashing: SHAKE256 behind `HashDomain::mix` is a function parameter (`MixFn`). Only that both peers hash the same bytes is proved, not what the hash does.
- Base64 and UUID parsing: `base64ct` and `Uuid::parse_str` are function parameters (`Codecs`). `Lawful` states the laws the round-trip lemmas rely on.
- TLS and HTTP: the TLS and HTTP layers, the listeners, tokio tasks, channels, `sleep` and timeouts are not modelled. Each wait is one element of an input list, and a deadman timeout is one `TimedOut` event.
- Endless loops: every `loop` is run over a finite list of inputs, so a run that never ends is only seen up to some point.
- Deadman thread: `thread_run`, the runtime and the panic in `DeadmanWorker::start` are not modelled.
- Connection handler tasks: the fan-out handlers, the abort handles and the handler tasks they stop are not modelled.
- Connection ids: `next_connection_id` is a `nat`, so the overflow of `usize` after 2^64 connections is not modelled.
- Setup.FromConfigBuilds: the erase time `interval + 30` is a `nat`, so the `u64` overflow of a huge configured interval is not modelled.
- Configuration: reading and parsing the TOML file, `main.rs` and the command-line parser are not modelled. The TLS settings of `[etsi014]` matter only through whether the client builds, an input of `Environment`.
- Output handlers: the outfile and WireGuard handlers are not modelled beyond `OskHandler`.
- Errors and logs: log messages and `anyhow` context texts are not modelled. Each cause is a separate `Error` value, and start-up failures are `Config` reasons.
- Bytes.Ascii: `as_bytes` is exact only for characters below 128 (ASCII). Any other character is mapped to one byte, not to its UTF-8 encoding. Text with such a character is not valid Base64 in the source anyway.
- Simulator HTTP: response headers, `Content-Length` and the panics of `load_tls_config` are not modelled.
- Simulator JSON: the `key_ID` is carried as a UUID rather than as its text, so the JSON round trip is not modelled.
- Simulator.EncKeysRequestIssues: requires that the remote SAE id does not contain `dec_keys`. The simulator treats any path containing `dec_keys` as a `dec_keys` request, even an `enc_keys` one.
- ClientProtocol.RekeyAgreement: the client does not check that the key id in the device's answer matches the one asked for. The lemma assumes the device answers with the shared key.
- Rotation: Daisyway's design notes describe rotation records, sequence numbers and retry backoff. The code has none of them, and the model follows the code.
