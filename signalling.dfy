/** The signalling channel of the forwarding server (`backend/src/routes/sfu.ts`):
    one `Channel` per WebSocket connection, sharing a `Hub` that holds the two
    directories (room code -> peer id -> socket, room code -> peer id -> display
    name) and the forwarding orchestrator. Outbound traffic and the calls into
    the orchestrator are appended to one trace, in the order they happen. */
module Signalling {
  import opened Common
  import opened Forwarding

  /** The name shown for a peer that gave none. */
  const DefaultName: string := "Участник"

  /** A connection: its identity and whether its `readyState` is OPEN (1). */
  class Socket {
    const id: nat
    var open: bool

    constructor (id: nat, open: bool)
      ensures this.id == id && this.open == open
    {
      this.id := id;
      this.open := open;
    }
  }

  /** An inbound `SfuMessage`; an absent optional field is `None`. Identifiers
      the engine issued are handles, parameters the backend only passes on are blobs. */
  datatype SfuMessage = SfuMessage(
    msgType: string,
    roomCode: Option<string>,
    peerId: Option<string>,
    name: Option<string>,
    transportId: Option<HandleId>,
    dtlsParameters: Option<Blob>,
    kind: Option<string>,
    rtpParameters: Option<Blob>,
    producerId: Option<HandleId>,
    rtpCapabilities: Option<Blob>)

  /** A raw frame: a parsed message, or one whose parsing, or the read of its
      type field (a frame of `null`), throws. */
  datatype Inbound = Message(msg: SfuMessage) | Unparseable

  datatype Participant = Participant(peerId: string, name: string)

  /** The server's replies and notifications. */
  datatype ServerMsg =
    | Error(error: string)
    | Joined(rtpCapabilities: Option<HandleId>, participants: seq<Participant>)
    | PeerJoined(peerId: string, name: string)
    | TransportCreated(transport: TransportInfo)
    | TransportConnected(success: bool)
    | Produced(producerId: HandleId)
    | NewProducer(peerId: string, producerId: HandleId, name: string)
    | Consumed(consumer: ConsumerInfo)
    | Producers(producers: seq<ProducerEntry>)
    | PeerLeft(peerId: string, name: string)

  /** The calls into the orchestrator that can change its state. */
  datatype Call =
    | GetOrCreateRoomCall(code: string)
    | AddPeerCall(code: string, peerId: string)
    | CreateTransportCall(code: string, peerId: string)
    | ConnectTransportCall(code: string, peerId: string, transportId: HandleId)
    | ProduceCall(code: string, peerId: string, transportId: HandleId)
    | ConsumeCall(code: string, peerId: string, transportId: HandleId, producerId: HandleId)
    | RemovePeerCall(code: string, peerId: string)

  /** One observable step: a message written to a socket, or an orchestrator call. */
  datatype Effect = Sent(socket: nat, msg: ServerMsg) | Invoked(call: Call)

  /** `name || 'Участник'`: a missing or empty name becomes the default. */
  function DisplayName(name: Option<string>): (n: string)
    ensures n != ""
    ensures Present(name) ==> n == name.value
    ensures !Present(name) ==> n == DefaultName
  {
    if Present(name) then name.value else DefaultName
  }

  /** `peerNames.get(code)?.get(peerId) || 'Участник'`. */
  function NameIn(names: map<string, map<string, string>>, code: string, peerId: string): (n: string)
    ensures n != ""
    ensures code in names && peerId in names[code] && names[code][peerId] != "" ==> n == names[code][peerId]
    ensures !(code in names && peerId in names[code]) ==> n == DefaultName
    ensures code in names && peerId in names[code] && names[code][peerId] == "" ==> n == DefaultName
  {
    DisplayName(if code in names && peerId in names[code] then Some(names[code][peerId]) else None)
  }

  /** The per-room entry of a directory; a room without one has no entries. */
  function DirOf<V>(dirs: map<string, map<string, V>>, code: string): map<string, V> {
    if code in dirs then dirs[code] else map[]
  }

  /** A directory after `get(code) ?? new Map()` then `.set(peerId, v)`. */
  function PutNested<V>(dirs: map<string, map<string, V>>, code: string, peerId: string, v: V): (r: map<string, map<string, V>>)
    ensures code in r && r[code] == DirOf(dirs, code)[peerId := v]
    ensures peerId in r[code] && r[code][peerId] == v
    ensures forall k :: k in r <==> k in dirs || k == code
    ensures forall k :: k in dirs && k != code ==> r[k] == dirs[k]
  {
    dirs[code := DirOf(dirs, code)[peerId := v]]
  }

  /** A directory after `get(code)?.delete(peerId)`, dropping the room's entry
      once it holds no peer. */
  function RemoveNested<V>(dirs: map<string, map<string, V>>, code: string, peerId: string): (r: map<string, map<string, V>>)
    ensures code !in dirs ==> r == dirs
    ensures code in dirs ==> (code in r <==> dirs[code] - {peerId} != map[])
    ensures code in r ==> r[code] == dirs[code] - {peerId}
    ensures forall k :: k != code ==> (k in r <==> k in dirs)
    ensures forall k :: k != code && k in dirs ==> r[k] == dirs[k]
  {
    if code !in dirs then dirs
    else
      var rest := dirs[code] - {peerId};
      if rest == map[] then dirs - {code} else dirs[code := rest]
  }

  /** Every room entry of a directory holds at least one peer. */
  predicate NoEmptyRoom<V>(dirs: map<string, map<string, V>>) {
    forall code :: code in dirs ==> dirs[code] != map[]
  }

  /** A close right after the join of a new peer gives the directory back as
      it was before the join. */
  lemma {:induction false} CloseUndoesJoin<V>(dirs: map<string, map<string, V>>, code: string, peerId: string, v: V)
    requires NoEmptyRoom(dirs)
    requires peerId !in DirOf(dirs, code)
    ensures RemoveNested(PutNested(dirs, code, peerId, v), code, peerId) == dirs
  {
    var joined := PutNested(dirs, code, peerId, v);
    assert joined[code] - {peerId} == DirOf(dirs, code);
  }

  /** The two directories list the same peers of the same rooms, no room
      entry is empty, and no stored name is empty. */
  ghost predicate DirectoriesAgree(sockets: map<string, map<string, Socket>>, names: map<string, map<string, string>>) {
    && (forall code :: code in sockets <==> code in names)
    && (forall code, p :: code in sockets && code in names ==> (p in sockets[code] <==> p in names[code]))
    && NoEmptyRoom(sockets) && NoEmptyRoom(names)
    && (forall code, p :: code in names && p in names[code] ==> names[code][p] != "")
  }

  /** A join keeps the directories in step. */
  lemma {:induction false} JoinKeepsAgreement(sockets: map<string, map<string, Socket>>, names: map<string, map<string, string>>,
                                              code: string, peerId: string, socket: Socket, name: string)
    requires DirectoriesAgree(sockets, names) && name != ""
    ensures DirectoriesAgree(PutNested(sockets, code, peerId, socket), PutNested(names, code, peerId, name))
  {
  }

  /** A close keeps the directories in step. */
  lemma {:induction false} CloseKeepsAgreement(sockets: map<string, map<string, Socket>>, names: map<string, map<string, string>>,
                                               code: string, peerId: string)
    requires DirectoriesAgree(sockets, names)
    ensures DirectoriesAgree(RemoveNested(sockets, code, peerId), RemoveNested(names, code, peerId))
  {
    if code in sockets {
      var s1, n1 := sockets[code] - {peerId}, names[code] - {peerId};
      assert s1 != map[] <==> n1 != map[] by {
        if s1 != map[] {
          var q :| q in s1;
          assert q in n1;
        }
        if n1 != map[] {
          var q :| q in n1;
          assert q in s1;
        }
      }
    }
  }

  /** The sockets of `ps`, in that order, each sent `msg`. */
  function Sends(dir: map<string, Socket>, ps: seq<string>, msg: ServerMsg): seq<Effect>
    requires forall p :: p in ps ==> p in dir
  {
    seq(|ps|, i requires 0 <= i < |ps| => Sent(dir[ps[i]].id, msg))
  }

  /** `ps` lists, each once, exactly the peers of `dir` other than `exclude`
      whose socket is open. */
  ghost predicate BroadcastTo(dir: map<string, Socket>, exclude: string, ps: seq<string>)
    reads dir.Values
  {
    && (forall p :: p in ps <==> p in dir && p != exclude && dir[p].open)
    && (forall i, j :: 0 <= i < j < |ps| ==> ps[i] != ps[j])
  }

  /** `ps` lists, each once, every peer of `names` other than `joiner`, with its name. */
  ghost predicate ParticipantsOf(names: map<string, string>, joiner: string, ps: seq<Participant>) {
    && (forall x :: x in ps <==> x.peerId in names && x.peerId != joiner && names[x.peerId] == x.name)
    && (forall i, j :: 0 <= i < j < |ps| ==> ps[i].peerId != ps[j].peerId)
  }

  /** The `existingParticipants` loop of `join`. */
  method ExistingParticipants(names: map<string, string>, joiner: string) returns (ps: seq<Participant>)
    ensures ParticipantsOf(names, joiner, ps)
  {
    ps := [];
    var rest := names.Keys;
    ghost var seen: set<string> := {};
    while rest != {}
      invariant rest <= names.Keys && seen == names.Keys - rest
      invariant forall x :: x in ps <==> x.peerId in seen && x.peerId != joiner && names[x.peerId] == x.name
      invariant forall i :: 0 <= i < |ps| ==> ps[i].peerId in seen
      invariant forall i, j :: 0 <= i < j < |ps| ==> ps[i].peerId != ps[j].peerId
      decreases rest
    {
      var p :| p in rest;
      if p != joiner {
        ps := ps + [Participant(p, names[p])];
      }
      seen := seen + {p};
      rest := rest - {p};
    }
  }

  /** Why a message is refused before anything else happens, if it is: the
      guard clauses at the head of each case. `joined` is
      `currentRoom && currentPeerId`. */
  function Rejection(m: SfuMessage, joined: bool): (e: Option<string>)
    ensures m.msgType == "join" ==> (e.Some? <==> !(Present(m.roomCode) && Present(m.peerId)))
    ensures (m.msgType == "createTransport" || m.msgType == "getProducers") ==> (e.Some? <==> !joined)
    ensures m.msgType == "connectTransport" ==> (e.Some? <==> !(joined && m.transportId.Some? && m.dtlsParameters.Some?))
    ensures m.msgType == "produce" ==>
      (e.Some? <==> !(joined && m.transportId.Some? && Present(m.kind) && m.rtpParameters.Some?))
    ensures m.msgType == "consume" ==>
      (e.Some? <==> !(joined && m.transportId.Some? && m.producerId.Some? && m.rtpCapabilities.Some?))
    ensures !KnownType(m.msgType) ==> e == Some("Unknown message type: " + m.msgType)
    ensures m.msgType == "join" && e.Some? ==> e == Some("Missing roomCode or peerId")
    ensures (m.msgType == "createTransport" || m.msgType == "getProducers") && e.Some? ==> e == Some("Not joined")
    ensures (m.msgType == "connectTransport" || m.msgType == "produce" || m.msgType == "consume") && e.Some? ==>
      e == Some("Missing parameters")
  {
    match m.msgType
    case "join" =>
      if !Present(m.roomCode) || !Present(m.peerId) then Some("Missing roomCode or peerId") else None
    case "createTransport" => if !joined then Some("Not joined") else None
    case "connectTransport" =>
      if !joined || m.transportId.None? || m.dtlsParameters.None? then Some("Missing parameters") else None
    case "produce" =>
      if !joined || m.transportId.None? || !Present(m.kind) || m.rtpParameters.None? then Some("Missing parameters") else None
    case "consume" =>
      if !joined || m.transportId.None? || m.producerId.None? || m.rtpCapabilities.None? then Some("Missing parameters") else None
    case "getProducers" => if !joined then Some("Not joined") else None
    case _ => Some("Unknown message type: " + m.msgType)
  }

  predicate KnownType(t: string) {
    t in {"join", "createTransport", "connectTransport", "produce", "consume", "getProducers"}
  }

  /** Before any join, every request other than `join` itself is refused. */
  lemma {:induction false} UnjoinedRefused(m: SfuMessage)
    requires m.msgType != "join"
    ensures Rejection(m, false).Some?
    ensures (m.msgType == "createTransport" || m.msgType == "getProducers") ==> Rejection(m, false) == Some("Not joined")
    ensures (m.msgType == "connectTransport" || m.msgType == "produce" || m.msgType == "consume") ==>
      Rejection(m, false) == Some("Missing parameters")
  {
  }

  /** The state shared by every connection. */
  class Hub {
    var roomSockets: map<string, map<string, Socket>>
    var peerNames: map<string, map<string, string>>
    /** Everything sent and every orchestrator call, oldest first. */
    var trace: seq<Effect>
    const sfu: Orchestrator

    /** The orchestrator is consistent and so are the directories. */
    ghost predicate Valid()
      reads this, sfu
    {
      sfu.Valid() && DirectoriesAgree(roomSockets, peerNames)
    }

    constructor (sfu: Orchestrator)
      requires sfu.Valid()
      ensures Valid()
      ensures this.sfu == sfu && roomSockets == map[] && peerNames == map[] && trace == []
    {
      this.sfu := sfu;
      roomSockets := map[];
      peerNames := map[];
      trace := [];
    }

    /** `broadcast`: sends `msg` to every open socket of the room except the
        excluded peer's; nothing when the room has no socket directory. */
    method Broadcast(code: string, exclude: string, msg: ServerMsg) returns (ghost recipients: seq<string>)
      modifies this`trace
      ensures BroadcastTo(DirOf(roomSockets, code), exclude, recipients)
      ensures trace == old(trace) + Sends(DirOf(roomSockets, code), recipients, msg)
    {
      recipients := [];
      if code !in roomSockets {
        return;
      }
      var sockets := roomSockets[code];
      var rest := sockets.Keys;
      while rest != {}
        invariant rest <= sockets.Keys
        invariant forall p :: p in recipients <==> p in sockets && p !in rest && p != exclude && sockets[p].open
        invariant forall i, j :: 0 <= i < j < |recipients| ==> recipients[i] != recipients[j]
        invariant trace == old(trace) + Sends(sockets, recipients, msg)
        decreases rest
      {
        var p :| p in rest;
        if p != exclude && sockets[p].open {
          trace := trace + [Sent(sockets[p].id, msg)];
          recipients := recipients + [p];
        }
        rest := rest - {p};
      }
    }

    /** What `join` does to the shared state before replying: the directories
        take the peer, then the orchestrator does. */
    method Admit(code: string, peerId: string, socket: Socket, name: string) returns (caps: Option<HandleId>)
      requires Valid() && name != ""
      modifies this`roomSockets, this`peerNames, this`trace, sfu
      ensures Valid()
      ensures roomSockets == PutNested(old(roomSockets), code, peerId, socket)
      ensures peerNames == PutNested(old(peerNames), code, peerId, name)
      ensures var room := if code in old(sfu.rooms) then old(sfu.rooms)[code]
                          else RoomState(Router(old(sfu.nextHandle), sfu.workers[old(sfu.nextWorkerIdx)]), map[]);
        && sfu.rooms == old(sfu.rooms)[code := room.(peers := room.peers[peerId := EmptySession])]
        && caps == Some(room.router.id)
        && sfu.nextWorkerIdx == (if code in old(sfu.rooms) then old(sfu.nextWorkerIdx)
                                 else NextIndex(old(sfu.nextWorkerIdx), |sfu.workers|))
        && sfu.nextHandle == (if code in old(sfu.rooms) then old(sfu.nextHandle) else old(sfu.nextHandle) + 1)
      ensures trace == old(trace) + [Invoked(GetOrCreateRoomCall(code)), Invoked(AddPeerCall(code, peerId))]
    {
      Register(code, peerId, socket, name);
      caps := EnterRoom(code, peerId);
    }

    /** The orchestrator part of `join`: `getOrCreateRoom`, then `addPeer`,
        then the room's capabilities. */
    method EnterRoom(code: string, peerId: string) returns (caps: Option<HandleId>)
      requires Valid()
      modifies this`trace, sfu
      ensures Valid()
      ensures var room := if code in old(sfu.rooms) then old(sfu.rooms)[code]
                          else RoomState(Router(old(sfu.nextHandle), sfu.workers[old(sfu.nextWorkerIdx)]), map[]);
        && sfu.rooms == old(sfu.rooms)[code := room.(peers := room.peers[peerId := EmptySession])]
        && caps == Some(room.router.id)
        && sfu.nextWorkerIdx == (if code in old(sfu.rooms) then old(sfu.nextWorkerIdx)
                                 else NextIndex(old(sfu.nextWorkerIdx), |sfu.workers|))
        && sfu.nextHandle == (if code in old(sfu.rooms) then old(sfu.nextHandle) else old(sfu.nextHandle) + 1)
      ensures trace == old(trace) + [Invoked(GetOrCreateRoomCall(code)), Invoked(AddPeerCall(code, peerId))]
    {
      var room := sfu.GetOrCreateRoom(code);
      sfu.AddPeer(code, peerId);
      caps := sfu.RouterRtpCapabilities(code);
      trace := trace + [Invoked(GetOrCreateRoomCall(code)), Invoked(AddPeerCall(code, peerId))];
    }

    /** The orchestrator part of `close`: `removePeer`. */
    method Depart(code: string, peerId: string)
      requires Valid()
      modifies this`trace, sfu`rooms, sfu`liveRouters
      ensures Valid()
      ensures sfu.rooms == RemovePeerFrom(old(sfu.rooms), code, peerId)
      ensures trace == old(trace) + [Invoked(RemovePeerCall(code, peerId))]
    {
      sfu.RemovePeer(code, peerId);
      trace := trace + [Invoked(RemovePeerCall(code, peerId))];
    }

    /** The directory part of `join`: the socket and the name are filed under
        the room, whose entries are created when missing. */
    method Register(code: string, peerId: string, socket: Socket, name: string)
      requires Valid() && name != ""
      modifies this`roomSockets, this`peerNames
      ensures Valid()
      ensures roomSockets == PutNested(old(roomSockets), code, peerId, socket)
      ensures peerNames == PutNested(old(peerNames), code, peerId, name)
    {
      JoinKeepsAgreement(roomSockets, peerNames, code, peerId, socket, name);
      roomSockets := PutNested(roomSockets, code, peerId, socket);
      peerNames := PutNested(peerNames, code, peerId, name);
    }

    /** The directory part of `close`: the peer's socket and name are deleted,
        and each room entry goes once it is empty. */
    method Unregister(code: string, peerId: string)
      requires Valid()
      modifies this`roomSockets, this`peerNames
      ensures Valid()
      ensures roomSockets == RemoveNested(old(roomSockets), code, peerId)
      ensures peerNames == RemoveNested(old(peerNames), code, peerId)
    {
      CloseKeepsAgreement(roomSockets, peerNames, code, peerId);
      roomSockets := RemoveNested(roomSockets, code, peerId);
      peerNames := RemoveNested(peerNames, code, peerId);
    }
  }

  /** One WebSocket connection and the peer it joined as, if any. */
  class Channel {
    const socket: Socket
    const hub: Hub
    var currentRoom: Option<string>
    var currentPeerId: Option<string>

    /** The shared state is consistent; the channel joined as both a room and
        a peer or as neither, and never with an empty one. */
    ghost predicate Valid()
      reads this, hub, hub.sfu
    {
      && hub.Valid()
      && (currentRoom.Some? <==> currentPeerId.Some?)
      && (currentRoom.Some? ==> Present(currentRoom) && Present(currentPeerId))
    }

    /** A new connection has joined nothing. */
    constructor (socket: Socket, hub: Hub)
      requires hub.Valid()
      ensures Valid()
      ensures this.socket == socket && this.hub == hub
      ensures currentRoom == None && currentPeerId == None
    {
      this.socket := socket;
      this.hub := hub;
      currentRoom := None;
      currentPeerId := None;
    }

    /** `currentRoom && currentPeerId`. */
    predicate IsJoined()
      reads this
    {
      Present(currentRoom) && Present(currentPeerId)
    }

    /** `send`: a reply on this channel's own socket. */
    method Send(msg: ServerMsg)
      modifies hub`trace
      ensures hub.trace == old(hub.trace) + [Sent(socket.id, msg)]
    {
      hub.trace := hub.trace + [Sent(socket.id, msg)];
    }

    /** The sockets of a room's directory entry, whose ready state a broadcast reads. */
    function SocketsOf(code: Option<string>): set<Socket>
      reads hub
    {
      if code.Some? then DirOf(hub.roomSockets, code.value).Values else {}
    }

    /** The channel's own join and both directories are as they were. */
    twostate predicate ChannelKept()
      reads this, hub
    {
      unchanged(this) && hub.roomSockets == old(hub.roomSockets) && hub.peerNames == old(hub.peerNames)
    }

    /** What `join` promises. Refused, exactly when the room code or the peer
        id is missing: nothing changes but the error reply. Accepted: the
        channel records room and peer, both directories and the orchestrator
        take the peer, the reply lists exactly the other participants, and
        the other open sockets of the room are told. */
    twostate predicate JoinDone(m: SfuMessage, participants: seq<Participant>, recipients: seq<string>)
      requires old(hub.sfu.Valid()) && m.msgType == "join"
      reads this, hub, hub.sfu, SocketsOf(m.roomCode)
    {
      && (Rejection(m, old(IsJoined())).Some? ==>
            && unchanged(this) && unchanged(hub.sfu)
            && hub.roomSockets == old(hub.roomSockets) && hub.peerNames == old(hub.peerNames)
            && hub.trace == old(hub.trace) + [Sent(socket.id, Error(Rejection(m, old(IsJoined())).value))])
      && (Rejection(m, old(IsJoined())).None? ==>
            var code := m.roomCode.value; var peerId := m.peerId.value; var name := DisplayName(m.name);
            var room := if code in old(hub.sfu.rooms) then old(hub.sfu.rooms)[code]
                        else RoomState(Router(old(hub.sfu.nextHandle), hub.sfu.workers[old(hub.sfu.nextWorkerIdx)]), map[]);
            && currentRoom == Some(code) && currentPeerId == Some(peerId)
            && hub.roomSockets == PutNested(old(hub.roomSockets), code, peerId, socket)
            && hub.peerNames == PutNested(old(hub.peerNames), code, peerId, name)
            && hub.sfu.rooms == old(hub.sfu.rooms)[code := room.(peers := room.peers[peerId := EmptySession])]
            && hub.sfu.nextWorkerIdx == (if code in old(hub.sfu.rooms) then old(hub.sfu.nextWorkerIdx)
                                         else NextIndex(old(hub.sfu.nextWorkerIdx), |hub.sfu.workers|))
            && hub.sfu.nextHandle == (if code in old(hub.sfu.rooms) then old(hub.sfu.nextHandle) else old(hub.sfu.nextHandle) + 1)
            && ParticipantsOf(hub.peerNames[code], peerId, participants)
            && BroadcastTo(hub.roomSockets[code], peerId, recipients)
            && hub.trace == old(hub.trace)
                 + [Invoked(GetOrCreateRoomCall(code)), Invoked(AddPeerCall(code, peerId))]
                 + [Sent(socket.id, Joined(Some(room.router.id), participants))]
                 + Sends(hub.roomSockets[code], recipients, PeerJoined(peerId, name)))
    }

    /** What `createTransport` promises: "Not joined" and no change before a
        join; otherwise a fresh transport under the peer and its id in the
        reply, or, for an unknown room or peer, no change and an error. */
    twostate predicate CreateTransportDone(m: SfuMessage)
      requires m.msgType == "createTransport"
      reads this, hub, hub.sfu
    {
      && ChannelKept() && hub.sfu.nextWorkerIdx == old(hub.sfu.nextWorkerIdx)
      && (Rejection(m, IsJoined()).Some? ==>
            unchanged(hub.sfu) && hub.trace == old(hub.trace) + [Sent(socket.id, Error("Not joined"))])
      && (Rejection(m, IsJoined()).None? ==>
            var code := currentRoom.value; var peerId := currentPeerId.value; var id := old(hub.sfu.nextHandle);
            var ok := code in old(hub.sfu.rooms) && peerId in old(hub.sfu.rooms)[code].peers;
            && (ok ==> var s := old(hub.sfu.rooms)[code].peers[peerId];
                  && hub.sfu.rooms == WithSession(old(hub.sfu.rooms), code, peerId,
                                                  s.(transports := s.transports[id := Transport(false)]))
                  && hub.sfu.nextHandle == id + 1)
            && (!ok ==> hub.sfu.rooms == old(hub.sfu.rooms) && hub.sfu.nextHandle == id)
            && hub.trace == old(hub.trace)
                 + [Invoked(CreateTransportCall(code, peerId)),
                    Sent(socket.id, if ok then TransportCreated(TransportInfo(id)) else Error("Failed to create transport"))])
    }

    /** What `connectTransport` promises: "Missing parameters" and no change
        when not joined or a field is missing; otherwise the reply says whether
        the transport is registered under the peer, and only that transport
        becomes connected. */
    twostate predicate ConnectTransportDone(m: SfuMessage)
      requires m.msgType == "connectTransport"
      reads this, hub, hub.sfu
    {
      && ChannelKept() && hub.sfu.nextWorkerIdx == old(hub.sfu.nextWorkerIdx)
      && (Rejection(m, IsJoined()).Some? ==>
            unchanged(hub.sfu) && hub.trace == old(hub.trace) + [Sent(socket.id, Error("Missing parameters"))])
      && (Rejection(m, IsJoined()).None? ==>
            var code := currentRoom.value; var peerId := currentPeerId.value; var t := m.transportId.value;
            var ok := Registered(old(hub.sfu.rooms), code, peerId, t);
            && (ok ==> var s := old(hub.sfu.rooms)[code].peers[peerId];
                  hub.sfu.rooms == WithSession(old(hub.sfu.rooms), code, peerId,
                                               s.(transports := s.transports[t := Transport(true)])))
            && (!ok ==> hub.sfu.rooms == old(hub.sfu.rooms))
            && hub.sfu.nextHandle == old(hub.sfu.nextHandle)
            && hub.trace == old(hub.trace) + [Invoked(ConnectTransportCall(code, peerId, t)), Sent(socket.id, TransportConnected(ok))])
    }

    /** What `produce` promises: "Missing parameters" and no change when not
        joined or a field is missing; otherwise, when the transport is
        registered, a fresh producer on it, the `produced` reply and
        `newProducer` (with the producer's name) to the other open sockets of
        the room; else no change and an error. */
    twostate predicate ProduceDone(m: SfuMessage, recipients: seq<string>)
      requires m.msgType == "produce"
      reads this, hub, hub.sfu, SocketsOf(currentRoom)
    {
      && ChannelKept() && hub.sfu.nextWorkerIdx == old(hub.sfu.nextWorkerIdx)
      && (Rejection(m, IsJoined()).Some? ==>
            unchanged(hub.sfu) && hub.trace == old(hub.trace) + [Sent(socket.id, Error("Missing parameters"))])
      && (Rejection(m, IsJoined()).None? ==>
            var code := currentRoom.value; var peerId := currentPeerId.value; var t := m.transportId.value;
            var id := old(hub.sfu.nextHandle);
            var call := [Invoked(ProduceCall(code, peerId, t))];
            if Registered(old(hub.sfu.rooms), code, peerId, t) then
              var s := old(hub.sfu.rooms)[code].peers[peerId];
              && hub.sfu.rooms == WithSession(old(hub.sfu.rooms), code, peerId,
                                              s.(producers := s.producers[id := Producer(t, m.kind.value)]))
              && hub.sfu.nextHandle == id + 1
              && BroadcastTo(DirOf(hub.roomSockets, code), peerId, recipients)
              && hub.trace == old(hub.trace) + call + [Sent(socket.id, Produced(id))]
                   + Sends(DirOf(hub.roomSockets, code), recipients,
                           NewProducer(peerId, id, NameIn(hub.peerNames, code, peerId)))
            else
              && hub.sfu.rooms == old(hub.sfu.rooms) && hub.sfu.nextHandle == id
              && hub.trace == old(hub.trace) + call + [Sent(socket.id, Error("Failed to produce"))])
    }

    /** What `consume` promises: "Missing parameters" and no change when not
        joined or a field is missing; otherwise, when the transport is
        registered and the capability check accepts, a fresh consumer of the
        producer on that transport and its description in the reply; else no
        change and an error. */
    twostate predicate ConsumeDone(m: SfuMessage)
      requires m.msgType == "consume"
      reads this, hub, hub.sfu
    {
      && ChannelKept() && hub.sfu.nextWorkerIdx == old(hub.sfu.nextWorkerIdx)
      && (Rejection(m, IsJoined()).Some? ==>
            unchanged(hub.sfu) && hub.trace == old(hub.trace) + [Sent(socket.id, Error("Missing parameters"))])
      && (Rejection(m, IsJoined()).None? ==>
            var code := currentRoom.value; var peerId := currentPeerId.value;
            var t := m.transportId.value; var pr := m.producerId.value; var id := old(hub.sfu.nextHandle);
            var ok := Registered(old(hub.sfu.rooms), code, peerId, t) && hub.sfu.canConsume(pr, m.rtpCapabilities.value);
            && (ok ==> var s := old(hub.sfu.rooms)[code].peers[peerId];
                  && hub.sfu.rooms == WithSession(old(hub.sfu.rooms), code, peerId,
                                                  s.(consumers := s.consumers[id := Consumer(t, pr)]))
                  && hub.sfu.nextHandle == id + 1)
            && (!ok ==> hub.sfu.rooms == old(hub.sfu.rooms) && hub.sfu.nextHandle == id)
            && hub.trace == old(hub.trace)
                 + [Invoked(ConsumeCall(code, peerId, t, pr)),
                    Sent(socket.id, if ok then Consumed(ConsumerInfo(id, pr)) else Error("Failed to consume"))])
    }

    /** What `getProducers` promises: "Not joined" before a join; otherwise the
        reply lists exactly the producers of the other peers of the room. */
    twostate predicate GetProducersDone(m: SfuMessage, producers: seq<ProducerEntry>)
      requires m.msgType == "getProducers"
      reads this, hub, hub.sfu
    {
      && ChannelKept() && unchanged(hub.sfu)
      && (Rejection(m, IsJoined()).Some? ==> hub.trace == old(hub.trace) + [Sent(socket.id, Error("Not joined"))])
      && (Rejection(m, IsJoined()).None? ==>
            var code := currentRoom.value; var peerId := currentPeerId.value;
            && hub.trace == old(hub.trace) + [Sent(socket.id, Producers(producers))]
            && (forall i, j :: 0 <= i < j < |producers| ==> producers[i] != producers[j])
            && (code !in hub.sfu.rooms ==> producers == [])
            && (code in hub.sfu.rooms ==>
                  forall e :: e in producers <==> OwnsProducer(hub.sfu.rooms[code], e) && e.peerId != peerId))
    }

    /** What handling one parsed message promises: the effect of the case its
        type selects, or for any other type an error naming it and no change.
        Every case but `join` keeps the channel and both directories. */
    twostate predicate Handled(m: SfuMessage)
      requires old(hub.sfu.Valid())
      reads this, hub, hub.sfu, SocketsOf(m.roomCode), SocketsOf(currentRoom)
    {
      if m.msgType == "join" then exists ps, rs :: JoinDone(m, ps, rs)
      else if m.msgType == "createTransport" then CreateTransportDone(m)
      else if m.msgType == "connectTransport" then ConnectTransportDone(m)
      else if m.msgType == "produce" then exists rs :: ProduceDone(m, rs)
      else if m.msgType == "consume" then ConsumeDone(m)
      else if m.msgType == "getProducers" then exists ps :: GetProducersDone(m, ps)
      else
        && unchanged(this) && unchanged(hub.sfu)
        && hub.roomSockets == old(hub.roomSockets) && hub.peerNames == old(hub.peerNames)
        && hub.trace == old(hub.trace) + [Sent(socket.id, Error("Unknown message type: " + m.msgType))]
    }

    /** `join`: files the socket and the name under the room, gets or creates
        the forwarding room, installs an empty session, replies `joined` with
        everybody else and tells the others. */
    method Join(m: SfuMessage) returns (ghost participants: seq<Participant>, ghost recipients: seq<string>)
      requires Valid() && m.msgType == "join"
      modifies this, hub, hub.sfu
      ensures Valid()
      ensures JoinDone(m, participants, recipients)
    {
      participants, recipients := [], [];
      if !Present(m.roomCode) || !Present(m.peerId) {
        Send(Error("Missing roomCode or peerId"));
        return;
      }
      var code := m.roomCode.value;
      var peerId := m.peerId.value;
      currentRoom := Some(code);
      currentPeerId := Some(peerId);
      var name := DisplayName(m.name);
      var caps := hub.Admit(code, peerId, socket, name);
      ghost var sockets := hub.roomSockets;
      participants := Welcome(code, peerId, caps);
      ghost var replied := hub.trace;
      recipients := hub.Broadcast(code, peerId, PeerJoined(peerId, name));
      assert hub.roomSockets == sockets;
      assert hub.trace == replied + Sends(sockets[code], recipients, PeerJoined(peerId, name));
    }

    /** The `joined` reply: the room's capabilities and everybody else in the room. */
    method Welcome(code: string, peerId: string, caps: Option<HandleId>) returns (participants: seq<Participant>)
      requires code in hub.peerNames
      modifies hub`trace
      ensures ParticipantsOf(hub.peerNames[code], peerId, participants)
      ensures hub.trace == old(hub.trace) + [Sent(socket.id, Joined(caps, participants))]
    {
      participants := ExistingParticipants(hub.peerNames[code], peerId);
      Send(Joined(caps, participants));
    }

    /** `createTransport`: refused before a join; otherwise the orchestrator
        is asked for a transport, and its answer, or its refusal, is the reply. */
    method CreateTransport(m: SfuMessage)
      requires Valid() && m.msgType == "createTransport"
      modifies hub`trace, hub.sfu`rooms, hub.sfu`nextHandle
      ensures Valid()
      ensures CreateTransportDone(m)
    {
      if !IsJoined() {
        Send(Error("Not joined"));
        return;
      }
      var code := currentRoom.value;
      var peerId := currentPeerId.value;
      ghost var id := hub.sfu.nextHandle;
      assert Rejection(m, IsJoined()).None?;
      var transport := hub.sfu.CreateWebRtcTransport(code, peerId);
      hub.trace := hub.trace + [Invoked(CreateTransportCall(code, peerId))];
      assert hub.roomSockets == old(hub.roomSockets) && hub.peerNames == old(hub.peerNames);
      assert hub.Valid();
      if transport.None? {
        Send(Error("Failed to create transport"));
        return;
      }
      assert transport.value == TransportInfo(id);
      Send(TransportCreated(transport.value));
    }

    /** `connectTransport`: refused before a join or without a transport id or
        DTLS parameters; otherwise the reply says whether the orchestrator
        found the transport under this peer. */
    method ConnectTransport(m: SfuMessage)
      requires Valid() && m.msgType == "connectTransport"
      modifies hub`trace, hub.sfu`rooms
      ensures Valid()
      ensures ConnectTransportDone(m)
    {
      if !IsJoined() || m.transportId.None? || m.dtlsParameters.None? {
        Send(Error("Missing parameters"));
        return;
      }
      var code := currentRoom.value;
      var peerId := currentPeerId.value;
      var success := hub.sfu.ConnectTransport(code, peerId, m.transportId.value, m.dtlsParameters.value);
      hub.trace := hub.trace + [Invoked(ConnectTransportCall(code, peerId, m.transportId.value))];
      Send(TransportConnected(success));
    }

    /** `produce`: refused before a join or without transport id, kind or RTP
        parameters. Otherwise a producer is asked for; on success the reply is
        `produced` and the other peers are told, under the producer's name;
        on failure only an error is sent. */
    method Produce(m: SfuMessage) returns (ghost recipients: seq<string>)
      requires Valid() && m.msgType == "produce"
      modifies hub`trace, hub.sfu`rooms, hub.sfu`nextHandle
      ensures Valid()
      ensures ProduceDone(m, recipients)
    {
      recipients := [];
      if !IsJoined() || m.transportId.None? || !Present(m.kind) || m.rtpParameters.None? {
        Send(Error("Missing parameters"));
        return;
      }
      var code := currentRoom.value;
      var peerId := currentPeerId.value;
      var producerId := hub.sfu.Produce(code, peerId, m.transportId.value, m.kind.value, m.rtpParameters.value);
      hub.trace := hub.trace + [Invoked(ProduceCall(code, peerId, m.transportId.value))];
      if producerId.None? {
        Send(Error("Failed to produce"));
        return;
      }
      Send(Produced(producerId.value));
      var producerName := NameIn(hub.peerNames, code, peerId);
      recipients := hub.Broadcast(code, peerId, NewProducer(peerId, producerId.value, producerName));
    }

    /** `consume`: refused before a join or without transport id, producer id
        or RTP capabilities; otherwise the reply is the new consumer, or an
        error when the orchestrator refuses. */
    method Consume(m: SfuMessage)
      requires Valid() && m.msgType == "consume"
      modifies hub`trace, hub.sfu`rooms, hub.sfu`nextHandle
      ensures Valid()
      ensures ConsumeDone(m)
    {
      if !IsJoined() || m.transportId.None? || m.producerId.None? || m.rtpCapabilities.None? {
        Send(Error("Missing parameters"));
        return;
      }
      var code := currentRoom.value;
      var peerId := currentPeerId.value;
      var consumer := hub.sfu.Consume(code, peerId, m.transportId.value, m.producerId.value, m.rtpCapabilities.value);
      hub.trace := hub.trace + [Invoked(ConsumeCall(code, peerId, m.transportId.value, m.producerId.value))];
      if consumer.None? {
        Send(Error("Failed to consume"));
        return;
      }
      Send(Consumed(consumer.value));
    }

    /** `getProducers`: refused before a join; otherwise the reply lists the
        producers of every other peer of the room. */
    method GetProducers(m: SfuMessage) returns (ghost producers: seq<ProducerEntry>)
      requires Valid() && m.msgType == "getProducers"
      modifies hub`trace
      ensures GetProducersDone(m, producers)
    {
      producers := [];
      if !IsJoined() {
        Send(Error("Not joined"));
        return;
      }
      var list := hub.sfu.GetOtherProducers(currentRoom.value, currentPeerId.value);
      producers := list;
      Send(Producers(list));
    }

    /** The `message` handler: a frame that cannot be read gets "Internal
        error"; a parsed message has the effect of its case. A refused message
        changes nothing but the reply. */
    method OnMessage(input: Inbound)
      requires Valid()
      modifies this, hub, hub.sfu
      ensures Valid()
      ensures input.Unparseable? ==>
        && unchanged(this) && unchanged(hub.sfu)
        && hub.roomSockets == old(hub.roomSockets) && hub.peerNames == old(hub.peerNames)
        && hub.trace == old(hub.trace) + [Sent(socket.id, Error("Internal error"))]
      ensures input.Message? && Rejection(input.msg, old(IsJoined())).Some? ==>
        && unchanged(this) && unchanged(hub.sfu)
        && hub.roomSockets == old(hub.roomSockets) && hub.peerNames == old(hub.peerNames)
        && hub.trace == old(hub.trace) + [Sent(socket.id, Error(Rejection(input.msg, old(IsJoined())).value))]
      ensures input.Message? ==> Handled(input.msg)
    {
      match input
      case Unparseable =>
        Send(Error("Internal error"));
      case Message(m) =>
        Dispatch(m);
    }

    /** The `switch` on the message type. */
    method Dispatch(m: SfuMessage)
      requires Valid()
      modifies this, hub, hub.sfu
      ensures Valid()
      ensures Rejection(m, old(IsJoined())).Some? ==>
        && unchanged(this) && unchanged(hub.sfu)
        && hub.roomSockets == old(hub.roomSockets) && hub.peerNames == old(hub.peerNames)
        && hub.trace == old(hub.trace) + [Sent(socket.id, Error(Rejection(m, old(IsJoined())).value))]
      ensures Handled(m)
    {
      if m.msgType == "join" {
        ghost var ps, rs := Join(m);
      } else if m.msgType == "createTransport" {
        CreateTransport(m);
      } else if m.msgType == "connectTransport" {
        ConnectTransport(m);
      } else {
        DispatchMedia(m);
      }
    }

    /** The rest of the `switch`: the media cases and the default. */
    method DispatchMedia(m: SfuMessage)
      requires Valid()
      requires m.msgType != "join" && m.msgType != "createTransport" && m.msgType != "connectTransport"
      modifies hub`trace, hub.sfu`rooms, hub.sfu`nextHandle
      ensures Valid()
      ensures Rejection(m, old(IsJoined())).Some? ==>
        && unchanged(hub.sfu)
        && hub.trace == old(hub.trace) + [Sent(socket.id, Error(Rejection(m, old(IsJoined())).value))]
      ensures Handled(m)
    {
      if m.msgType == "produce" {
        ghost var rs := Produce(m);
      } else if m.msgType == "consume" {
        Consume(m);
      } else if m.msgType == "getProducers" {
        ghost var ps := GetProducers(m);
      } else {
        Send(Error("Unknown message type: " + m.msgType));
      }
    }

    /** The `close` handler of a joined channel: the departing name is read
        first; the socket and the name are deleted from the directories; the
        remaining open sockets of the room are told; only then is the peer
        removed from the orchestrator. A channel that never joined does nothing. */
    method OnClose() returns (ghost recipients: seq<string>)
      requires Valid()
      modifies hub, hub.sfu`rooms, hub.sfu`liveRouters
      ensures Valid()
      ensures hub.sfu.nextWorkerIdx == old(hub.sfu.nextWorkerIdx) && hub.sfu.nextHandle == old(hub.sfu.nextHandle)
      ensures !IsJoined() ==> unchanged(hub) && unchanged(hub.sfu)
      ensures IsJoined() ==>
        var code := currentRoom.value; var peerId := currentPeerId.value;
        var leaving := NameIn(old(hub.peerNames), code, peerId);
        && hub.roomSockets == RemoveNested(old(hub.roomSockets), code, peerId)
        && hub.peerNames == RemoveNested(old(hub.peerNames), code, peerId)
        && BroadcastTo(DirOf(hub.roomSockets, code), peerId, recipients)
        && hub.trace == old(hub.trace)
             + Sends(DirOf(hub.roomSockets, code), recipients, PeerLeft(peerId, leaving))
             + [Invoked(RemovePeerCall(code, peerId))]
        && hub.sfu.rooms == RemovePeerFrom(old(hub.sfu.rooms), code, peerId)
    {
      recipients := [];
      if !IsJoined() {
        return;
      }
      var code := currentRoom.value;
      var peerId := currentPeerId.value;
      var leaving := NameIn(hub.peerNames, code, peerId);
      hub.Unregister(code, peerId);
      ghost var sockets, names := hub.roomSockets, hub.peerNames;
      recipients := hub.Broadcast(code, peerId, PeerLeft(peerId, leaving));
      hub.Depart(code, peerId);
      assert hub.roomSockets == sockets && hub.peerNames == names;
      assert BroadcastTo(DirOf(sockets, code), peerId, recipients);
    }
  }
}
