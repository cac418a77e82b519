# Voice rooms: admission control, forwarding orchestration and signalling

This project is a Dafny model of the server core of a small group-call system. The system has two topologies. Small rooms use a peer mesh. Larger rooms use a selective-forwarding server built on a media engine. The model has four modules.

- `Common` (`common.dfy`) holds what the other modules share:
  - `Option`;
  - opaque protocol parameters (`Blob`);
  - JavaScript truthiness of optional strings;
  - ASCII `toUpperCase`/`toLowerCase`;
  - the `Array.from` enumerations of a Set and of a Map.
- `MeshRooms` (`mesh_rooms.dfy`) models the mesh-room registry (`backend/src/services/rooms.ts`). It is a `Registry` class whose `rooms` map goes from room code to a `MeshRoom` record.
  - Every operation upper-cases the code before the lookup.
  - A peer's admission state goes from none to pending (`RequestJoin`), then to active (`ApproveJoin`, or `SetHost` directly), then back to none (`RejectJoin`, `LeaveRoom`).
  - The class invariant has two parts: keys are upper-case, and a host is always an active peer and a permitted recorder.
- `Forwarding` (`forwarding.dfy`) models the forwarding orchestrator and its worker pool (`backend/src/services/mediasoup.ts`). It is an `Orchestrator` class.
  - It holds a fixed, non-empty worker array and the round-robin cursor over it.
  - Each room has one routing context (`Router`) and a table of peer sessions (`PeerSession`). Each session has transports, producers and consumers.
  - The engine's objects are opaque handles, drawn fresh from `nextHandle`.
  - The engine's `canConsume` check is a function fixed at construction.
  - The engine deletes table entries on its "transportclose" and "producerclose" events. The model writes this out as the function `CloseTransports`; `removePeer` is proved to reduce to `WithoutPeer`.
  - The class invariant has four parts: every id is below `nextHandle`; every producer and consumer sits on a transport of its own session; no two rooms share a routing context; and the set of open routing contexts (`liveRouters`) is exactly the contexts of the rooms.
- `Signalling` (`signalling.dfy`) models the WebSocket signalling channel (`backend/src/routes/sfu.ts`).
  - A `Hub` holds the shared state:
    - two directories, room → peer → socket and room → peer → name;
    - the orchestrator;
    - a `trace` that records every message sent and every state-changing orchestrator call, oldest first.
  - One `Channel` per connection keeps `currentRoom`/`currentPeerId` and has one method per message type, plus `OnMessage` and `OnClose`.
  - Inbound frames are `SfuMessage` values whose absent fields are `None`.
  - The hub invariant has three parts: the two directories list the same peers of the same rooms; no room entry is empty; and no stored name is empty.

The media engine, the network and the random number source are not modelled. `GenerateCode` receives the base-36 text of the random number as a parameter. The orchestrator receives its workers and the capability check as constructor parameters.

## Model

| member | source | states |
|---|---|---|
| Common.Upper | backend/src/services/rooms.ts:28 | upper-casing keeps the length, maps each character by the ASCII rule and leaves no lower-case letter |
| Common.UpperOfLower | backend/src/services/rooms.ts:27-29 | a lower-cased code normalises to the same key as the code itself |
| Common.UpperIdempotent | backend/src/services/rooms.ts:12 | normalising an already normalised code changes nothing |
| Common.UpperOfUpperCase | backend/src/services/rooms.ts:12 | a string without lower-case letters is its own normal form, so a generated code needs no further normalisation |
| Common.Enumerate | backend/src/services/rooms.ts:52 | `Array.from` of a Set lists every element exactly once and nothing else |
| Common.Entries | backend/src/services/rooms.ts:65 | `Array.from(map.entries())` lists every key exactly once, paired with its value |
| MeshRooms.GenerateCode | backend/src/services/rooms.ts:11-13 | the code is the upper-cased characters 2..8 of the base-36 text, clamped as `substring` does: characters 2 to the end for a shorter text and nothing for one under 2 characters; so at most 6 long, exactly 6 when the text has at least 8 characters, upper-case and its own normal form |
| MeshRooms.Registry.constructor | backend/src/services/rooms.ts:9 | the registry starts empty and consistent |
| MeshRooms.Registry.CreateRoom | backend/src/services/rooms.ts:15-25 | an empty room record is stored under the generated code, overwriting any room with that code; the invariant is kept |
| MeshRooms.Registry.GetRoom | backend/src/services/rooms.ts:27-29 | a room is found exactly when its upper-cased code is a key, and the record returned is the one stored there |
| MeshRooms.LookupIgnoresCase | backend/src/services/rooms.ts:27-29 | looking up the lower-case or upper-case spelling of a code finds the same room as the code |
| MeshRooms.Registry.SetHost | backend/src/services/rooms.ts:31-38 | fails exactly for an unknown room and then changes nothing; otherwise the peer becomes host, an active peer and a recorder, nothing else changes, and repeating it for the current host is a no-op |
| MeshRooms.Registry.RequestJoin | backend/src/services/rooms.ts:40-45 | fails exactly for an unknown room; otherwise the pending request is recorded (overwriting an earlier one) and the active peers are unchanged |
| MeshRooms.Registry.ApproveJoin | backend/src/services/rooms.ts:47-53 | `null` exactly for an unknown room; otherwise the peer moves from pending to active and the result lists the whole active set once each; approving an active peer with no pending request changes nothing |
| MeshRooms.Registry.RejectJoin | backend/src/services/rooms.ts:55-60 | fails exactly for an unknown room; otherwise only the pending request is removed |
| MeshRooms.Registry.GetPending | backend/src/services/rooms.ts:62-66 | `[]` for an unknown room; otherwise every pending request exactly once, with its name |
| MeshRooms.Registry.LeaveRoom | backend/src/services/rooms.ts:68-79 | the peer is dropped from the active peers, the pending table and the recorders; the room is deleted when the leaver was host or no active peer remains; other rooms are untouched; unknown room: no change |
| MeshRooms.Registry.SetScreenShare | backend/src/services/rooms.ts:82-87 | fails exactly for an unknown room; otherwise only the screen-share switch changes |
| MeshRooms.Registry.AllowRecording | backend/src/services/rooms.ts:90-95 | fails exactly for an unknown room; otherwise the peer is added to the recorders, active or not |
| MeshRooms.Registry.DisallowRecording | backend/src/services/rooms.ts:97-104 | fails exactly for an unknown room; otherwise the permission is removed unless the peer is the host, for whom it is a silent no-op that still reports success, so the host keeps recording |
| MeshRooms.Registry.GetRoomSettings | backend/src/services/rooms.ts:106-113 | `null` exactly for an unknown room; otherwise the screen-share switch and every recorder exactly once |
| Forwarding.PoolSize | backend/src/services/mediasoup.ts:67 | the pool has min(CPU count, 4) workers, and at least one when the CPU count is positive; a stand-alone description of `initMediasoup`'s count, on which no other contract depends |
| Forwarding.NextIndex | backend/src/services/mediasoup.ts:89-93 | the cursor stays in range, steps up by one and wraps to 0 after the last worker |
| Forwarding.CursorWalksUp | backend/src/services/mediasoup.ts:89-93 | within one round, k calls move the cursor k workers up |
| Forwarding.CursorAfterSplits | backend/src/services/mediasoup.ts:89-93 | a calls followed by b calls put the cursor where a + b calls do |
| Forwarding.WrapsAfterLastWorker | backend/src/services/mediasoup.ts:89-93 | from cursor i, n - i calls bring the cursor back to the first worker |
| Forwarding.FullRoundReturns | backend/src/services/mediasoup.ts:89-93 | n successive calls visit the workers cyclically and bring the cursor back to where it started |
| Forwarding.CloseTransports | backend/src/services/mediasoup.ts:223-272 | closing transports removes the peer's producers and consumers on them and every consumer in the room of one of those producers; a consumer of any peer survives exactly when it is neither on a closed transport of the peer nor receiving one of the closed producers; the router, the peer set, every transport table and the other peers' producers are kept, and what survives is unchanged |
| Forwarding.AfterTransportsClosed | backend/src/services/mediasoup.ts:223-268 | the "transportclose" deletions in one session: a producer or consumer survives exactly when it is not on a closed transport, unchanged; the transport table is kept |
| Forwarding.AfterProducersClosed | backend/src/services/mediasoup.ts:270-272 | the "producerclose" deletions in one session: a consumer survives exactly when its producer is not closed, unchanged; transports and producers are kept |
| Forwarding.CloseNoTransport | backend/src/services/mediasoup.ts:145 | closing no transport changes nothing |
| Forwarding.ProducersClosedTwice | backend/src/services/mediasoup.ts:270-272 | two rounds of "producerclose" deletions are one round for the union |
| Forwarding.TransportsClosedTwice | backend/src/services/mediasoup.ts:223-268 | two rounds of "transportclose" deletions are one round for the union |
| Forwarding.TransportsThenProducers | backend/src/services/mediasoup.ts:223-272 | the two kinds of event deletions commute |
| Forwarding.CloseTransportsCompose | backend/src/services/mediasoup.ts:145 | closing transports a and then b is closing a + b, so the cascade does not depend on the order of the close loop |
| Forwarding.CloseTransportIdempotent | backend/src/services/mediasoup.ts:223-272 | closing an already closed transport again changes nothing: the event deletions are idempotent |
| Forwarding.WithoutPeer | backend/src/services/mediasoup.ts:138-153 | after a peer is removed its session is gone and the router is kept; every other peer keeps its transports and producers, and its consumer survives, unchanged, exactly when it does not receive one of the removed peer's producers |
| Forwarding.ClosingEveryTransport | backend/src/services/mediasoup.ts:145-146 | closing every transport of a well-formed session and deleting the session is `WithoutPeer`: every producer of the peer is closed by the cascade |
| Forwarding.WithoutPeerWellFormed | backend/src/services/mediasoup.ts:145-146 | removing a peer keeps the room's sessions well formed |
| Forwarding.RemovePeerLeavesNothing | backend/src/services/mediasoup.ts:138-153 | after `removePeer` nothing of the peer remains: no session and no consumer of its producers; the remaining peers keep their transports and producers and lose exactly the consumers of the peer's producers; the room survives exactly when another peer is left; other rooms are untouched |
| Forwarding.RemovePeerFrom | backend/src/services/mediasoup.ts:138-153 | an unknown room leaves the table as it was; a room that survives keeps its routing context and is never left empty |
| Forwarding.PeerCountAfterRemoval | backend/src/services/mediasoup.ts:138-153 | removing a present peer lowers the room's peer count by one, and the room is deleted exactly when it was the last peer |
| Forwarding.InstallSession | backend/src/services/mediasoup.ts:126-280 | installing a well-formed session in a known room keeps the table consistent and the set of routing contexts unchanged |
| Forwarding.Orchestrator.constructor | backend/src/services/mediasoup.ts:49-86 | a non-empty pool, the cursor at 0, no rooms and no open routing context |
| Forwarding.Orchestrator.GetNextWorker | backend/src/services/mediasoup.ts:89-93 | returns the worker under the cursor and advances the cursor with `NextIndex` |
| Forwarding.Orchestrator.GetOrCreateRoom | backend/src/services/mediasoup.ts:96-113 | an existing room is returned and nothing changes; otherwise a room with a fresh routing context on the next worker and no peers is added, and only that context is newly open |
| Forwarding.Orchestrator.DeleteRoom | backend/src/services/mediasoup.ts:116-123 | the room is forgotten and its routing context closed; for an unknown code nothing changes |
| Forwarding.Orchestrator.AddPeer | backend/src/services/mediasoup.ts:126-135 | an empty session is installed, replacing any earlier one; for an unknown room nothing changes |
| Forwarding.Orchestrator.CreateWebRtcTransport | backend/src/services/mediasoup.ts:162-185 | a result exactly when room and peer are known; then a fresh, unconnected transport is registered under the peer and nothing else changes; otherwise nothing changes |
| Forwarding.Orchestrator.ConnectTransport | backend/src/services/mediasoup.ts:188-201 | success exactly when the transport is registered under that peer of that room; then only that transport becomes connected |
| Forwarding.Orchestrator.Produce | backend/src/services/mediasoup.ts:204-228 | a producer id exactly when room, peer and transport exist; then a fresh producer on that transport is registered under the peer; otherwise nothing changes |
| Forwarding.Orchestrator.Consume | backend/src/services/mediasoup.ts:231-280 | a consumer exactly when room, peer and transport exist and the capability check accepts; then a fresh consumer of that producer is registered; otherwise nothing is registered |
| Forwarding.Orchestrator.GetOtherProducers | backend/src/services/mediasoup.ts:283-298 | `[]` for an unknown room; otherwise every producer of every other peer, once each, tagged with its owner |
| Forwarding.Orchestrator.CloseAllTransports | backend/src/services/mediasoup.ts:145 | the close loop, one transport at a time, ends in the cascade of closing all of the peer's transports |
| Forwarding.Orchestrator.DropSession | backend/src/services/mediasoup.ts:141-147 | for a peer the room holds, the room becomes `WithoutPeer` and the invariant is kept |
| Forwarding.Orchestrator.RemovePeer | backend/src/services/mediasoup.ts:138-153 | the table becomes `RemovePeerFrom`; the room's routing context is closed exactly when the room goes; the invariant is kept |
| Forwarding.Orchestrator.DeleteIfEmpty | backend/src/services/mediasoup.ts:149-152 | a room with an empty peer table is deleted with its routing context; otherwise nothing changes |
| Forwarding.Orchestrator.RoomExists | backend/src/services/mediasoup.ts:301-303 | true exactly for a known room |
| Forwarding.Orchestrator.GetPeerCount | backend/src/services/mediasoup.ts:306-308 | the number of sessions of the room, 0 for an unknown room |
| Forwarding.Orchestrator.RouterRtpCapabilities | backend/src/services/mediasoup.ts:156-159 | present exactly for a known room, and then the room's own routing context |
| Signalling.DisplayName | backend/src/routes/sfu.ts:57 | a given, non-empty name is kept; a missing or empty one becomes the default; never empty |
| Signalling.NameIn | backend/src/routes/sfu.ts:205 | the stored name when there is a non-empty one; the default when the peer has no entry or an empty one; never empty |
| Signalling.PutNested | backend/src/routes/sfu.ts:60-69 | the room entry is created when missing and maps the peer to the value; other rooms are untouched |
| Signalling.RemoveNested | backend/src/routes/sfu.ts:208-223 | the peer is deleted from the room entry, and the entry goes exactly when it becomes empty; other rooms and an unknown room are untouched |
| Signalling.CloseUndoesJoin | backend/src/routes/sfu.ts:208-223 | closing right after a new peer's join gives back the directory as it was before the join |
| Signalling.JoinKeepsAgreement | backend/src/routes/sfu.ts:60-69 | a join keeps the two directories listing the same peers, with no empty room entry and no empty name |
| Signalling.CloseKeepsAgreement | backend/src/routes/sfu.ts:208-223 | a close keeps the two directories listing the same peers, with no empty room entry |
| Signalling.ExistingParticipants | backend/src/routes/sfu.ts:77-82 | every other peer of the room's name directory exactly once, with its name, and never the joiner |
| Signalling.Rejection | backend/src/routes/sfu.ts:48-195 | each case's guard: a join without room code or peer id ("Missing roomCode or peerId"), `createTransport` or `getProducers` before a join ("Not joined"), the other requests before a join or without their required fields ("Missing parameters"), and an unknown type ("Unknown message type: " and the type), each refused exactly when its guard fails |
| Signalling.UnjoinedRefused | backend/src/routes/sfu.ts:94-191 | before a join every request other than `join` is refused, with "Not joined" or "Missing parameters" |
| Signalling.Socket.constructor | backend/src/routes/sfu.ts:28 | a socket with its identity and ready state |
| Signalling.Hub.constructor | backend/src/routes/sfu.ts:19-20 | empty directories and an empty trace |
| Signalling.Hub.Broadcast | backend/src/routes/sfu.ts:22-32 | the message goes exactly to the open sockets of the room other than the excluded peer's, each once; a room without an entry gets nothing |
| Signalling.Hub.Admit | backend/src/routes/sfu.ts:55-76 | the directories take the socket and the name, the room is got or created, an empty session is installed and the room's capabilities are returned; the worker cursor and the handle counter stay for an existing room and step once for a new one |
| Signalling.Hub.EnterRoom | backend/src/routes/sfu.ts:72-76 | `getOrCreateRoom` then `addPeer`: the new table and the returned capabilities; the worker cursor and the handle counter stay for an existing room, and for a new room the cursor takes one round-robin step and the counter one step |
| Signalling.Hub.Depart | backend/src/routes/sfu.ts:232 | the orchestrator's table becomes `RemovePeerFrom`; only the table and the set of open routing contexts may change, so the worker cursor and the handle counter stay |
| Signalling.Hub.Register | backend/src/routes/sfu.ts:60-69 | both directories file the peer under the room, and they still agree |
| Signalling.Hub.Unregister | backend/src/routes/sfu.ts:207-223 | both directories delete the peer, dropping empty room entries, and they still agree |
| Signalling.Channel.constructor | backend/src/routes/sfu.ts:37-38 | a new channel has joined nothing |
| Signalling.Channel.Send | backend/src/routes/sfu.ts:40-42 | one message on the channel's own socket |
| Signalling.Channel.Join | backend/src/routes/sfu.ts:49-92 | refused with nothing changed but the error reply, exactly when room code or peer id is missing; otherwise the channel records room and peer, the directories and the orchestrator take the peer, the worker cursor and the handle counter move only when the room is new, the reply lists exactly the other participants, and the open sockets of the other peers get `peerJoined` |
| Signalling.Channel.Welcome | backend/src/routes/sfu.ts:76-83 | the `joined` reply with the capabilities and exactly the other participants |
| Signalling.Channel.CreateTransport | backend/src/routes/sfu.ts:94-108 | "Not joined" with no orchestrator change before a join; otherwise the orchestrator's table becomes the old one with a fresh, unconnected transport under the peer and the handle counter steps up, and the transport is sent; when room or peer is unknown the table is unchanged and the reply is "Failed to create transport"; the worker cursor, the channel and both directories never change |
| Signalling.Channel.ConnectTransport | backend/src/routes/sfu.ts:110-125 | "Missing parameters" with no orchestrator change when not joined or a field is missing; otherwise, when the transport is registered under the peer, the table becomes the old one with only that transport connected, else it is unchanged, and the reply says which; the worker cursor, the channel and both directories never change |
| Signalling.Channel.Produce | backend/src/routes/sfu.ts:127-157 | "Missing parameters" with no change when not joined or a field is missing; otherwise, when the transport is registered, the table becomes the old one with a fresh producer of that kind on that transport, the counter steps up, and `produced` is followed by `newProducer` (with the producer's name) to the other open sockets; else the table is unchanged and the reply is "Failed to produce" with no broadcast; the worker cursor, the channel and both directories never change |
| Signalling.Channel.Consume | backend/src/routes/sfu.ts:159-180 | "Missing parameters" with no change when not joined or a field is missing; otherwise, when the transport is registered and the capability check accepts, the table becomes the old one with a fresh consumer of the producer on that transport, the counter steps up and the consumer is sent; else the table is unchanged and the reply is "Failed to consume"; the worker cursor, the channel and both directories never change |
| Signalling.Channel.GetProducers | backend/src/routes/sfu.ts:182-191 | "Not joined" before a join; otherwise the reply lists exactly the producers of the other peers of the room, each once; the channel, the directories and the orchestrator are unchanged |
| Signalling.Channel.OnMessage | backend/src/routes/sfu.ts:44-199 | an unreadable frame gets "Internal error" and changes nothing; a refused message changes nothing but its error reply; every readable message has the full effect of its case, as `Dispatch` states, and a message other than `join` leaves the channel and both directories as they were |
| Signalling.Channel.Dispatch | backend/src/routes/sfu.ts:48-195 | every refused message, including one of unknown type, changes nothing but its error reply; every accepted message has exactly the effect its handler promises: the join, transport, producer and consumer postconditions above, each of which outside `join` keeps the channel and both directories, or the producer listing, which also keeps the orchestrator |
| Signalling.Channel.DispatchMedia | backend/src/routes/sfu.ts:127-195 | the `produce`, `consume`, `getProducers` and unknown-type cases: a refusal changes nothing but its reply, and an accepted message has its handler's effect |
| Signalling.Channel.OnClose | backend/src/routes/sfu.ts:202-234 | a channel that never joined does nothing; otherwise the name is read first, both directories drop the peer, `peerLeft` goes to the remaining open sockets of the cleaned-up directory, and then the peer is removed from the orchestrator; the worker cursor and the handle counter never move |

## Left out

- The media engine (mediasoup workers, routers, transports, producers and consumers) is abstract. Its objects are handles drawn from a counter, and its ICE/DTLS/RTP parameters are opaque `Blob`s. The RTP capabilities of a routing context are represented by the context's id. The capability check `canConsume` is a function given at construction.
- Forwarding.Orchestrator.Consume: the capability check depends only on the producer id and the receiver's capabilities, not on the router's state.
- `initMediasoup` (backend/src/services/mediasoup.ts:66-86), `getLocalIp` and the worker "died" handler are left out. They involve process start-up, the operating system and process exit. The orchestrator is built with a given non-empty worker array. `PoolSize` describes the number of workers `initMediasoup` starts, but the constructor does not require its array to have that size. A machine reporting no CPU would give an empty pool, on which `getNextWorker` indexes nothing; the model requires a non-empty pool instead.
- `generateCode` calls `Math.random`. The model receives the random number's base-36 text as a parameter.
- The `await` points of the handlers are left out. Each handler runs to completion atomically. Interleavings with other connections and transports orphaned by a disconnect during an `await` are not modelled.
- JSON encoding and decoding, Fastify and the WebSocket library are left out. Messages are datatypes. `Unparseable` stands for a frame that fails to parse or parses to `null`, whose type read then throws; both get "Internal error". An exception thrown inside a handler after it has changed state is not modelled. Neither is a frame that parses to a number, a string or an array, which reaches the default case with an undefined type.
- Transport, producer and consumer ids are naturals, so the source's `!msg.transportId` falsiness test becomes an absence test. An empty-string id cannot be expressed.
- The insertion order of JavaScript Maps and Sets is not modelled. `Array.from`, `forEach` and broadcasts enumerate in some order, and each element is proved to appear exactly once.
- Common.Upper, MeshRooms.Registry.GetRoom: case mapping covers ASCII letters only, and `toUpperCase` on other characters is taken to be the identity. JavaScript's full mapping can also change the length ("ß" upper-cases to "SS"), so `Upper`'s length-preserving contract holds only under the ASCII mapping.
- Records in the maps are values, so two rooms or sessions never share one object.
- `getRouterRtpCapabilities` and `getOtherProducers` change no state, so the trace does not record calls to them.
- The REST capabilities endpoint (backend/src/routes/sfu.ts:238-244) is left out. It is a plain HTTP wrapper around `getRouterRtpCapabilities`.
- backend/src/routes/rooms.ts, backend/src/index.ts, backend/src/peer/index.ts, backend/src/routes/health.ts and the frontend are not part of this model.
- Forwarding.Orchestrator.GetOrCreateRoom: the engine's `createRouter` (backend/src/services/mediasoup.ts:101) is taken to succeed. A rejected call would surface as "Internal error" (backend/src/routes/sfu.ts:196-198); this path is not modelled.
- Forwarding.Orchestrator.CreateWebRtcTransport: the engine's `createWebRtcTransport` (backend/src/services/mediasoup.ts:175) is taken to succeed, although the port range (backend/src/services/mediasoup.ts:9-10) is finite. A rejected call would surface as "Internal error"; this path is not modelled.
- Forwarding.Orchestrator.ConnectTransport: the engine's `connect` (backend/src/services/mediasoup.ts:199) is taken to succeed; a rejected DTLS handshake would surface as "Internal error" and is not modelled.
- Forwarding.Orchestrator.Produce: the engine's `produce` (backend/src/services/mediasoup.ts:220) is taken to succeed; a rejection would surface as "Internal error" and is not modelled.
- Forwarding.Orchestrator.Consume: the engine's `consume` (backend/src/services/mediasoup.ts:258) is taken to succeed once `canConsume` accepts; a rejection would surface as "Internal error" and is not modelled.
- Signalling.Channel.Join: the engine calls behind `getOrCreateRoom` are taken to succeed. In the source a rejected call reaches the "Internal error" reply after both directories already hold the peer; that state is not modelled.
- Signalling.Channel.CreateTransport, Signalling.Channel.ConnectTransport, Signalling.Channel.Produce, Signalling.Channel.Consume: the "Internal error" reply for a rejected engine call is not modelled, for the reasons above.
- MeshRooms.LookupIgnoresCase: the property holds for the ASCII case mapping of the model only. Under JavaScript's full Unicode mapping it fails: the Kelvin sign U+212A lower-cases to "k", whose upper case is "K", not the sign; and "ſ" (U+017F) upper-cases to "S".
- The falsiness tests on `dtlsParameters`, `rtpParameters` and `rtpCapabilities` (backend/src/routes/sfu.ts:111, 128, 160) also refuse `false`, `0`, `""` and `null`. A present `Blob` is always accepted, so those refusals are not modelled.
- A message without a `type` field reaches the default case and gets "Unknown message type: undefined". The model's message type is always a string, so that text is not modelled.
- Logging is left out: the worker start-up messages, the room created and deleted messages (backend/src/services/mediasoup.ts:109, 121), the warning when `canConsume` refuses (backend/src/services/mediasoup.ts:254) and the handler's error log (backend/src/routes/sfu.ts:197). They go to the console only and change no state.
- Signalling.ExistingParticipants: its contract does not state the number of participants. That count follows from "each once, exactly the other peers" but is not proved.
- Behaviours of the source that the model keeps as they are:
  - `createRoom` overwrites a room whose code collides;
  - `addPeer` replaces an existing session without closing its transports;
  - a second `join` on one channel leaves its earlier directory entries in place;
  - `close` deletes by peer id even when another connection has re-registered that id;
  - `currentRoom` is not cleared on close.
