/** The forwarding-room orchestrator and its worker pool
    (backend/src/services/mediasoup.ts).

    The media engine itself (workers, routers, transports, producers,
    consumers, the capability check) is abstract: every engine object is an
    opaque handle whose id the engine draws fresh from `nextHandle`, and the
    capability check is the function `canConsume` given at construction.
    What is modelled is the bookkeeping: the round-robin cursor over a fixed,
    non-empty worker array, the table from room code to routing context and
    peer sessions, and the three tables of each session. The engine's
    "transportclose" and "producerclose" events, which delete table entries,
    are written out as an explicit cascade (`CloseTransports`). */
module Forwarding {
  import opened Common

  type HandleId = nat

  /** A routing context and the worker that owns it. */
  datatype Router = Router(id: HandleId, worker: HandleId)

  /** A transport of a peer; `connected` once the DTLS handshake parameters were given. */
  datatype Transport = Transport(connected: bool)

  /** A producer and the transport it was created on. */
  datatype Producer = Producer(transport: HandleId, kind: string)

  /** A consumer, the transport it was created on and the producer it receives. */
  datatype Consumer = Consumer(transport: HandleId, producer: HandleId)

  /** `PeerState`: the peer's transports, producers and consumers by id. */
  datatype PeerSession = PeerSession(
    transports: map<HandleId, Transport>,
    producers: map<HandleId, Producer>,
    consumers: map<HandleId, Consumer>)

  /** The session `addPeer` installs. */
  const EmptySession := PeerSession(map[], map[], map[])

  /** `RoomState`: the room's routing context and its peer sessions. */
  datatype RoomState = RoomState(router: Router, peers: map<string, PeerSession>)

  /** What `createWebRtcTransport` returns besides the engine's ICE and DTLS parameters. */
  datatype TransportInfo = TransportInfo(id: HandleId)

  /** What `consume` returns besides the engine's kind and RTP parameters. */
  datatype ConsumerInfo = ConsumerInfo(id: HandleId, producerId: HandleId)

  /** An element of the `getOtherProducers` result. */
  datatype ProducerEntry = ProducerEntry(peerId: string, producerId: HandleId)

  // ---------------------------------------------------------------------------
  // Worker pool

  /** Number of workers started: the CPU count, but at most four. */
  function PoolSize(cpuCount: nat): (n: nat)
    ensures n <= 4 && n <= cpuCount
    ensures n == 4 || n == cpuCount
    ensures cpuCount > 0 ==> n > 0
  {
    Min(cpuCount, 4)
  }

  /** The cursor after one `getNextWorker` call. */
  function NextIndex(i: nat, n: nat): (j: nat)
    requires n > 0
    ensures j < n
    ensures i < n - 1 ==> j == i + 1
    ensures i == n - 1 ==> j == 0
  {
    (i + 1) % n
  }

  /** The cursor after `k` calls, starting from cursor `i`. */
  function CursorAfter(i: nat, n: nat, k: nat): (j: nat)
    requires i < n
    ensures j < n
  {
    if k == 0 then i else NextIndex(CursorAfter(i, n, k - 1), n)
  }

  /** Within one round the cursor walks up the array one worker per call. */
  lemma {:induction false} CursorWalksUp(i: nat, n: nat, k: nat)
    requires i + k < n
    ensures CursorAfter(i, n, k) == i + k
  {
    if k > 0 {
      CursorWalksUp(i, n, k - 1);
    }
  }

  /** Calls compose: `a` calls and then `b` more are `a + b` calls. */
  lemma {:induction false} CursorAfterSplits(i: nat, n: nat, a: nat, b: nat)
    requires i < n
    ensures CursorAfter(i, n, a + b) == CursorAfter(CursorAfter(i, n, a), n, b)
  {
    if b > 0 {
      CursorAfterSplits(i, n, a, b - 1);
    }
  }

  /** After the last worker the cursor wraps to the first one. */
  lemma WrapsAfterLastWorker(i: nat, n: nat)
    requires i < n
    ensures CursorAfter(i, n, n - i) == 0
  {
    CursorWalksUp(i, n, n - i - 1);
  }

  /** Successive calls visit the workers in cyclic order: after a full round
      of `n` calls the cursor is back where it started. */
  lemma FullRoundReturns(i: nat, n: nat)
    requires i < n
    ensures CursorAfter(i, n, n) == i
  {
    CursorAfterSplits(i, n, n - i, i);
    WrapsAfterLastWorker(i, n);
    CursorWalksUp(0, n, i);
  }

  // ---------------------------------------------------------------------------
  // Session invariants and the close cascade

  /** Every id is below the engine's next fresh id, and the session owns the
      transport of each of its producers and consumers. */
  ghost predicate SessionWellFormed(s: PeerSession, bound: HandleId) {
    && (forall t :: t in s.transports ==> t < bound)
    && (forall pr :: pr in s.producers ==> pr < bound && s.producers[pr].transport in s.transports)
    && (forall c :: c in s.consumers ==> c < bound && s.consumers[c].transport in s.transports)
  }

  ghost predicate RoomWellFormed(room: RoomState, bound: HandleId) {
    && room.router.id < bound
    && forall p :: p in room.peers ==> SessionWellFormed(room.peers[p], bound)
  }

  /** Ids of the producers of `s` that were created on one of the transports `ts`. */
  function ProducersOn(s: PeerSession, ts: set<HandleId>): set<HandleId> {
    set pr | pr in s.producers && s.producers[pr].transport in ts
  }

  /** The session after its transports `ts` closed: each producer and consumer
      built on one of them got "transportclose" and deleted itself. The closed
      transports themselves stay in the table, as in the source. */
  function AfterTransportsClosed(s: PeerSession, ts: set<HandleId>): (r: PeerSession)
    ensures r.transports == s.transports
    ensures forall pr :: pr in r.producers <==> pr in s.producers && s.producers[pr].transport !in ts
    ensures forall c :: c in r.consumers <==> c in s.consumers && s.consumers[c].transport !in ts
    ensures forall pr :: pr in r.producers ==> r.producers[pr] == s.producers[pr]
    ensures forall c :: c in r.consumers ==> r.consumers[c] == s.consumers[c]
  {
    s.(producers := map pr | pr in s.producers && s.producers[pr].transport !in ts :: s.producers[pr],
       consumers := map c | c in s.consumers && s.consumers[c].transport !in ts :: s.consumers[c])
  }

  /** The session after the producers `prs` closed: each consumer of one of them
      got "producerclose" and deleted itself. */
  function AfterProducersClosed(s: PeerSession, prs: set<HandleId>): (r: PeerSession)
    ensures r.transports == s.transports && r.producers == s.producers
    ensures forall c :: c in r.consumers <==> c in s.consumers && s.consumers[c].producer !in prs
    ensures forall c :: c in r.consumers ==> r.consumers[c] == s.consumers[c]
  {
    s.(consumers := map c | c in s.consumers && s.consumers[c].producer !in prs :: s.consumers[c])
  }

  /** The event cascade of closing the transports `ts` of peer `p`: their
      producers and consumers go, and so does every consumer, of any peer of
      the room, that received one of those producers. */
  function CloseTransports(room: RoomState, p: string, ts: set<HandleId>): (r: RoomState)
    requires p in room.peers
    ensures r.router == room.router
    ensures r.peers.Keys == room.peers.Keys
    ensures r.peers[p].transports == room.peers[p].transports
    ensures forall pr :: pr in r.peers[p].producers ==>
      pr in room.peers[p].producers && r.peers[p].producers[pr].transport !in ts
    ensures forall pr :: pr in room.peers[p].producers && room.peers[p].producers[pr].transport !in ts ==>
      pr in r.peers[p].producers
    ensures forall c :: c in r.peers[p].consumers ==> r.peers[p].consumers[c].transport !in ts
    ensures forall q, c :: q in r.peers && c in r.peers[q].consumers ==>
      r.peers[q].consumers[c].producer !in ProducersOn(room.peers[p], ts)
    ensures forall pr :: pr in r.peers[p].producers ==> r.peers[p].producers[pr] == room.peers[p].producers[pr]
    ensures forall q :: q in room.peers && q != p ==>
      r.peers[q].transports == room.peers[q].transports && r.peers[q].producers == room.peers[q].producers
    ensures forall q, c :: q in room.peers ==>
      (c in r.peers[q].consumers <==>
         && c in room.peers[q].consumers
         && !(q == p && room.peers[q].consumers[c].transport in ts)
         && room.peers[q].consumers[c].producer !in ProducersOn(room.peers[p], ts))
    ensures forall q, c :: q in r.peers && c in r.peers[q].consumers ==>
      r.peers[q].consumers[c] == room.peers[q].consumers[c]
  {
    var s := room.peers[p];
    var closed := ProducersOn(s, ts);
    room.(peers := map q | q in room.peers ::
      AfterProducersClosed(if q == p then AfterTransportsClosed(s, ts) else room.peers[q], closed))
  }

  /** Closing no transport changes nothing. */
  lemma CloseNoTransport(room: RoomState, p: string)
    requires p in room.peers
    ensures CloseTransports(room, p, {}) == room
  {
    var r := CloseTransports(room, p, {});
    forall q | q in room.peers
      ensures r.peers[q] == room.peers[q]
    {
      assert r.peers[q].producers == room.peers[q].producers;
      assert r.peers[q].consumers == room.peers[q].consumers;
    }
    assert r.peers == room.peers;
  }

  lemma ProducersClosedTwice(s: PeerSession, a: set<HandleId>, b: set<HandleId>)
    ensures AfterProducersClosed(AfterProducersClosed(s, a), b) == AfterProducersClosed(s, a + b)
  {
    assert AfterProducersClosed(AfterProducersClosed(s, a), b).consumers == AfterProducersClosed(s, a + b).consumers;
  }

  lemma TransportsClosedTwice(s: PeerSession, a: set<HandleId>, b: set<HandleId>)
    ensures AfterTransportsClosed(AfterTransportsClosed(s, a), b) == AfterTransportsClosed(s, a + b)
  {
    assert AfterTransportsClosed(AfterTransportsClosed(s, a), b).producers == AfterTransportsClosed(s, a + b).producers;
    assert AfterTransportsClosed(AfterTransportsClosed(s, a), b).consumers == AfterTransportsClosed(s, a + b).consumers;
  }

  lemma TransportsThenProducers(s: PeerSession, ts: set<HandleId>, prs: set<HandleId>)
    ensures AfterTransportsClosed(AfterProducersClosed(s, prs), ts)
         == AfterProducersClosed(AfterTransportsClosed(s, ts), prs)
  {
    assert AfterTransportsClosed(AfterProducersClosed(s, prs), ts).consumers
        == AfterProducersClosed(AfterTransportsClosed(s, ts), prs).consumers;
  }

  /** Closing transports `a` and then `b` is closing `a + b` at once: the
      cascade does not depend on the order in which `removePeer` closes them. */
  lemma {:induction false} CloseTransportsCompose(room: RoomState, p: string, a: set<HandleId>, b: set<HandleId>)
    requires p in room.peers
    ensures CloseTransports(CloseTransports(room, p, a), p, b) == CloseTransports(room, p, a + b)
  {
    var s0 := room.peers[p];
    var r1 := CloseTransports(room, p, a);
    var s1 := r1.peers[p];
    var lhs := CloseTransports(r1, p, b);
    var rhs := CloseTransports(room, p, a + b);
    var pa, pb := ProducersOn(s0, a), ProducersOn(s1, b);
    assert s1 == AfterProducersClosed(AfterTransportsClosed(s0, a), pa);
    assert pa + pb == ProducersOn(s0, a + b);
    forall q | q in room.peers
      ensures lhs.peers[q] == rhs.peers[q]
    {
      if q == p {
        calc {
          lhs.peers[q];
          AfterProducersClosed(AfterTransportsClosed(s1, b), pb);
          { TransportsThenProducers(AfterTransportsClosed(s0, a), b, pa); }
          AfterProducersClosed(AfterProducersClosed(AfterTransportsClosed(AfterTransportsClosed(s0, a), b), pa), pb);
          { TransportsClosedTwice(s0, a, b); }
          AfterProducersClosed(AfterProducersClosed(AfterTransportsClosed(s0, a + b), pa), pb);
          { ProducersClosedTwice(AfterTransportsClosed(s0, a + b), pa, pb); }
          rhs.peers[q];
        }
      } else {
        ProducersClosedTwice(room.peers[q], pa, pb);
      }
    }
    assert lhs.peers == rhs.peers;
  }

  /** Closing a transport that is already closed changes nothing: the
      deletions its events perform are idempotent. */
  lemma CloseTransportIdempotent(room: RoomState, p: string, t: HandleId)
    requires p in room.peers
    ensures CloseTransports(CloseTransports(room, p, {t}), p, {t}) == CloseTransports(room, p, {t})
  {
    CloseTransportsCompose(room, p, {t}, {t});
    assert {t} + {t} == {t};
  }

  /** `removePeer`'s effect on a room that holds the peer: every consumer, of
      any remaining peer, of one of the peer's producers is gone, and so is
      the peer's session. */
  function WithoutPeer(room: RoomState, p: string): (r: RoomState)
    requires p in room.peers
    ensures r.router == room.router
    ensures r.peers.Keys == room.peers.Keys - {p}
    ensures forall q, c :: q in r.peers && c in r.peers[q].consumers ==>
      r.peers[q].consumers[c].producer !in room.peers[p].producers
    ensures forall q :: q in r.peers ==>
      r.peers[q].transports == room.peers[q].transports && r.peers[q].producers == room.peers[q].producers
    ensures forall q, c :: q in r.peers ==>
      (c in r.peers[q].consumers <==>
         c in room.peers[q].consumers && room.peers[q].consumers[c].producer !in room.peers[p].producers)
    ensures forall q, c :: q in r.peers && c in r.peers[q].consumers ==>
      r.peers[q].consumers[c] == room.peers[q].consumers[c]
  {
    var gone := room.peers[p].producers.Keys;
    room.(peers := map q | q in room.peers && q != p :: AfterProducersClosed(room.peers[q], gone))
  }

  /** Closing every transport of a well-formed session and then deleting the
      session is `WithoutPeer`: since the session owns the transport of each of
      its producers, closing all its transports closes all its producers. */
  lemma ClosingEveryTransport(room: RoomState, p: string, bound: HandleId)
    requires p in room.peers && SessionWellFormed(room.peers[p], bound)
    ensures var r := CloseTransports(room, p, room.peers[p].transports.Keys);
      r.(peers := r.peers - {p}) == WithoutPeer(room, p)
  {
    var s := room.peers[p];
    assert ProducersOn(s, s.transports.Keys) == s.producers.Keys;
    var r := CloseTransports(room, p, s.transports.Keys);
    assert (r.peers - {p}).Keys == WithoutPeer(room, p).peers.Keys;
  }

  lemma WithoutPeerWellFormed(room: RoomState, p: string, bound: HandleId)
    requires p in room.peers && RoomWellFormed(room, bound)
    ensures RoomWellFormed(WithoutPeer(room, p), bound)
  {
    var r := WithoutPeer(room, p);
    forall q | q in r.peers
      ensures SessionWellFormed(r.peers[q], bound)
    {
      assert SessionWellFormed(room.peers[q], bound);
    }
  }

  /** The whole table after `removePeer(code, p)`. When the room's peer table
      ends up empty the room goes, even if `p` was not in it. */
  function RemovePeerFrom(rooms: map<string, RoomState>, code: string, p: string): (r: map<string, RoomState>)
    ensures code !in rooms ==> r == rooms
    ensures code in r ==> code in rooms && r[code].router == rooms[code].router && r[code].peers != map[]
  {
    if code !in rooms then rooms
    else
      var room := if p in rooms[code].peers then WithoutPeer(rooms[code], p) else rooms[code];
      if room.peers == map[] then rooms - {code} else rooms[code := room]
  }

  /** After `removePeer` nothing of the peer is left in the room: no session,
      and no consumer of any of its producers; the room is gone exactly when
      nobody else is left; other rooms are untouched. */
  lemma RemovePeerLeavesNothing(rooms: map<string, RoomState>, code: string, p: string)
    ensures var after := RemovePeerFrom(rooms, code, p);
      && (code in after ==> p !in after[code].peers)
      && (code in rooms && p in rooms[code].peers && code in after ==>
            forall q, c :: q in after[code].peers && c in after[code].peers[q].consumers ==>
              after[code].peers[q].consumers[c].producer !in rooms[code].peers[p].producers)
      && (code in rooms && p in rooms[code].peers && code in after ==>
            forall q :: q in after[code].peers ==>
              && after[code].peers[q].transports == rooms[code].peers[q].transports
              && after[code].peers[q].producers == rooms[code].peers[q].producers
              && forall c :: c in after[code].peers[q].consumers <==>
                   c in rooms[code].peers[q].consumers
                   && rooms[code].peers[q].consumers[c].producer !in rooms[code].peers[p].producers)
      && (code in after <==> code in rooms && exists q :: q in rooms[code].peers && q != p)
      && (forall other :: other != code ==> (other in after <==> other in rooms))
      && (forall other :: other != code && other in rooms ==> after[other] == rooms[other])
  {
    var after := RemovePeerFrom(rooms, code, p);
    if code in rooms {
      var room := if p in rooms[code].peers then WithoutPeer(rooms[code], p) else rooms[code];
      if exists q :: q in rooms[code].peers && q != p {
        var q :| q in rooms[code].peers && q != p;
        assert q in room.peers;
      } else {
        assert room.peers.Keys == {};
      }
    }
  }

  /** Removing a peer the room holds lowers the room's peer count by one, and
      the room disappears exactly when that peer was the last one. */
  lemma {:induction false} PeerCountAfterRemoval(rooms: map<string, RoomState>, code: string, p: string)
    requires code in rooms && p in rooms[code].peers
    ensures var after := RemovePeerFrom(rooms, code, p);
      && (code in after ==> |after[code].peers| == |rooms[code].peers| - 1)
      && (code !in after <==> |rooms[code].peers| == 1)
  {
    var room := WithoutPeer(rooms[code], p);
    assert room.peers.Keys == rooms[code].peers.Keys - {p};
    assert |room.peers.Keys| == |rooms[code].peers.Keys| - 1;
    assert |room.peers| == |room.peers.Keys| && |rooms[code].peers| == |rooms[code].peers.Keys|;
    if room.peers != map[] {
      var q :| q in room.peers;
      assert q in room.peers.Keys;
    }
  }

  /** Ids of the routing contexts of the rooms. */
  function RouterIds(rooms: map<string, RoomState>): set<HandleId> {
    set code | code in rooms :: rooms[code].router.id
  }

  ghost predicate RoomsWellFormed(rooms: map<string, RoomState>, workers: seq<HandleId>, bound: HandleId) {
    forall code :: code in rooms ==> RoomWellFormed(rooms[code], bound) && rooms[code].router.worker in workers
  }

  /** Exactly one routing context per room: no two rooms share one. */
  ghost predicate RoutersDistinct(rooms: map<string, RoomState>) {
    forall c1, c2 :: c1 in rooms && c2 in rooms && rooms[c1].router.id == rooms[c2].router.id ==> c1 == c2
  }

  lemma BoundGrows(rooms: map<string, RoomState>, workers: seq<HandleId>, n: HandleId, m: HandleId)
    requires RoomsWellFormed(rooms, workers, n) && n <= m
    ensures RoomsWellFormed(rooms, workers, m)
  {
    forall code | code in rooms
      ensures RoomWellFormed(rooms[code], m)
    {
      assert RoomWellFormed(rooms[code], n);
    }
  }

  /** Replacing a room's sessions while keeping its routing context keeps the table consistent. */
  lemma ReplaceRoom(rooms: map<string, RoomState>, workers: seq<HandleId>, bound: HandleId, code: string, room: RoomState)
    requires RoomsWellFormed(rooms, workers, bound) && RoutersDistinct(rooms)
    requires code in rooms && room.router == rooms[code].router && RoomWellFormed(room, bound)
    ensures RoomsWellFormed(rooms[code := room], workers, bound)
    ensures RoutersDistinct(rooms[code := room])
    ensures RouterIds(rooms[code := room]) == RouterIds(rooms)
  {
    var after := rooms[code := room];
    forall id | id in RouterIds(rooms)
      ensures id in RouterIds(after)
    {
      var c :| c in rooms && rooms[c].router.id == id;
      assert after[c].router.id == id;
    }
  }

  /** A session with one more table entry under a fresh id, and its tables' other entries kept, is still well formed. */
  lemma SessionGrows(s: PeerSession, s': PeerSession, bound: HandleId)
    requires SessionWellFormed(s, bound)
    requires s'.transports.Keys <= s.transports.Keys + {bound}
    requires s'.producers.Keys <= s.producers.Keys + {bound}
    requires s'.consumers.Keys <= s.consumers.Keys + {bound}
    requires forall pr :: pr in s'.producers ==> s'.producers[pr].transport in s'.transports
    requires forall c :: c in s'.consumers ==> s'.consumers[c].transport in s'.transports
    ensures SessionWellFormed(s', bound + 1)
  {
  }

  /** The table with one session replaced. */
  function WithSession(rooms: map<string, RoomState>, code: string, peerId: string, s: PeerSession): map<string, RoomState>
    requires code in rooms
  {
    rooms[code := rooms[code].(peers := rooms[code].peers[peerId := s])]
  }


  /** Installing a well-formed session in a known room keeps the table
      consistent, even when the id bound moves up. */
  lemma InstallSession(rooms: map<string, RoomState>, workers: seq<HandleId>, bound: HandleId, bound': HandleId,
                       code: string, peerId: string, s: PeerSession)
    requires RoomsWellFormed(rooms, workers, bound) && RoutersDistinct(rooms) && bound <= bound'
    requires code in rooms && SessionWellFormed(s, bound')
    ensures RoomsWellFormed(WithSession(rooms, code, peerId, s), workers, bound')
    ensures RoutersDistinct(WithSession(rooms, code, peerId, s))
    ensures RouterIds(WithSession(rooms, code, peerId, s)) == RouterIds(rooms)
  {
    BoundGrows(rooms, workers, bound, bound');
    var room := rooms[code].(peers := rooms[code].peers[peerId := s]);
    assert RoomWellFormed(rooms[code], bound');
    ReplaceRoom(rooms, workers, bound', code, room);
  }

  /** The room, the peer and the transport are all registered. */
  predicate Registered(rooms: map<string, RoomState>, code: string, peerId: string, transportId: HandleId) {
    code in rooms && peerId in rooms[code].peers && transportId in rooms[code].peers[peerId].transports
  }

  /** The producer belongs to that peer of the room. */
  predicate OwnsProducer(room: RoomState, e: ProducerEntry) {
    e.peerId in room.peers && e.producerId in room.peers[e.peerId].producers
  }

  class Orchestrator {
    const workers: seq<HandleId>
    const canConsume: (HandleId, Blob) -> bool
    var nextWorkerIdx: nat
    var rooms: map<string, RoomState>
    /** Routing contexts the engine holds open. */
    var liveRouters: set<HandleId>
    /** The engine's next fresh id. */
    var nextHandle: HandleId

    ghost predicate Valid()
      reads this
    {
      && |workers| > 0 && nextWorkerIdx < |workers|
      && RoomsWellFormed(rooms, workers, nextHandle)
      && RoutersDistinct(rooms)
      && liveRouters == RouterIds(rooms)
    }

    /** The state after `initMediasoup`: a non-empty pool and no rooms. */
    constructor (workers: seq<HandleId>, canConsume: (HandleId, Blob) -> bool)
      requires |workers| > 0
      ensures Valid()
      ensures this.workers == workers && this.canConsume == canConsume
      ensures nextWorkerIdx == 0 && rooms == map[] && liveRouters == {}
    {
      this.workers := workers;
      this.canConsume := canConsume;
      nextWorkerIdx := 0;
      rooms := map[];
      liveRouters := {};
      nextHandle := 0;
    }

    /** `getNextWorker`: the worker under the cursor; the cursor moves on cyclically. */
    method GetNextWorker() returns (worker: HandleId)
      requires Valid()
      modifies this`nextWorkerIdx
      ensures Valid()
      ensures worker == workers[old(nextWorkerIdx)]
      ensures nextWorkerIdx == NextIndex(old(nextWorkerIdx), |workers|)
    {
      worker := workers[nextWorkerIdx];
      nextWorkerIdx := (nextWorkerIdx + 1) % |workers|;
    }

    /** `getOrCreateRoom`: the existing room, untouched, or a new room with a
        fresh routing context on the next worker and no peers. */
    method GetOrCreateRoom(code: string) returns (room: RoomState)
      requires Valid()
      modifies this`nextWorkerIdx, this`rooms, this`liveRouters, this`nextHandle
      ensures Valid()
      ensures code in rooms && room == rooms[code]
      ensures code in old(rooms) ==>
        && room == old(rooms)[code] && rooms == old(rooms)
        && nextWorkerIdx == old(nextWorkerIdx) && nextHandle == old(nextHandle)
        && liveRouters == old(liveRouters)
      ensures code !in old(rooms) ==>
        && room == RoomState(Router(old(nextHandle), workers[old(nextWorkerIdx)]), map[])
        && rooms == old(rooms)[code := room]
        && nextWorkerIdx == NextIndex(old(nextWorkerIdx), |workers|)
        && nextHandle == old(nextHandle) + 1
        && room.router.id !in old(liveRouters)
        && liveRouters == old(liveRouters) + {room.router.id}
    {
      if code in rooms {
        return rooms[code];
      }
      var worker := GetNextWorker();
      room := RoomState(Router(nextHandle, worker), map[]);
      BoundGrows(rooms, workers, nextHandle, nextHandle + 1);
      var before := rooms;
      rooms := rooms[code := room];
      liveRouters := liveRouters + {room.router.id};
      nextHandle := nextHandle + 1;
      forall id | id in RouterIds(rooms)
        ensures id in liveRouters
      {
        var c :| c in rooms && rooms[c].router.id == id;
        if c != code {
          assert id in RouterIds(before);
        }
      }
      forall id | id in liveRouters
        ensures id in RouterIds(rooms)
      {
        if id == room.router.id {
          assert rooms[code].router.id == id;
        } else {
          var c :| c in before && before[c].router.id == id;
          assert rooms[c].router.id == id;
        }
      }
    }

    /** `deleteRoom`: closes the routing context and forgets the room; a no-op for an unknown code. */
    method DeleteRoom(code: string)
      requires Valid()
      modifies this`rooms, this`liveRouters
      ensures Valid()
      ensures code !in old(rooms) ==> rooms == old(rooms) && liveRouters == old(liveRouters)
      ensures code in old(rooms) ==>
        && rooms == old(rooms) - {code}
        && liveRouters == old(liveRouters) - {old(rooms)[code].router.id}
    {
      if code in rooms {
        var before := rooms;
        liveRouters := liveRouters - {rooms[code].router.id};
        rooms := rooms - {code};
        forall id | id in liveRouters
          ensures id in RouterIds(rooms)
        {
          var c :| c in before && before[c].router.id == id;
          assert c != code;
          assert rooms[c].router.id == id;
        }
        forall id | id in RouterIds(rooms)
          ensures id in liveRouters
        {
          var c :| c in rooms && rooms[c].router.id == id;
          assert before[c].router.id == id && c != code;
        }
      }
    }

    /** `addPeer`: installs an empty session, replacing any earlier session of
        that peer; a no-op for an unknown room. */
    method AddPeer(code: string, peerId: string)
      requires Valid()
      modifies this`rooms
      ensures Valid()
      ensures code !in old(rooms) ==> rooms == old(rooms)
      ensures code in old(rooms) ==> rooms == WithSession(old(rooms), code, peerId, EmptySession)
    {
      if code !in rooms {
        return;
      }
      InstallSession(rooms, workers, nextHandle, nextHandle, code, peerId, EmptySession);
      rooms := WithSession(rooms, code, peerId, EmptySession);
    }

    /** `createWebRtcTransport`: `null`, with nothing registered, unless the
        room and the peer are known; otherwise a fresh transport is registered
        under the peer. */
    method CreateWebRtcTransport(code: string, peerId: string) returns (info: Option<TransportInfo>)
      requires Valid()
      modifies this`rooms, this`nextHandle
      ensures Valid()
      ensures info.Some? <==> code in old(rooms) && peerId in old(rooms)[code].peers
      ensures info.None? ==> rooms == old(rooms) && nextHandle == old(nextHandle)
      ensures info.Some? ==> var s := old(rooms)[code].peers[peerId]; var id := info.value.id;
        && id == old(nextHandle) && id !in s.transports
        && rooms == WithSession(old(rooms), code, peerId, s.(transports := s.transports[id := Transport(false)]))
        && nextHandle == old(nextHandle) + 1
    {
      if code !in rooms || peerId !in rooms[code].peers {
        return None;
      }
      var s := rooms[code].peers[peerId];
      var id := nextHandle;
      var s' := s.(transports := s.transports[id := Transport(false)]);
      SessionGrows(s, s', nextHandle);
      InstallSession(rooms, workers, nextHandle, nextHandle + 1, code, peerId, s');
      rooms := WithSession(rooms, code, peerId, s');
      nextHandle := nextHandle + 1;
      info := Some(TransportInfo(id));
    }

    /** `connectTransport`: `false` unless the transport is registered under
        that peer of that room; otherwise the transport is connected. */
    method ConnectTransport(code: string, peerId: string, transportId: HandleId, dtlsParameters: Blob) returns (ok: bool)
      requires Valid()
      modifies this`rooms
      ensures Valid()
      ensures ok <==> Registered(old(rooms), code, peerId, transportId)
      ensures !ok ==> rooms == old(rooms)
      ensures ok ==> var s := old(rooms)[code].peers[peerId];
        rooms == WithSession(old(rooms), code, peerId, s.(transports := s.transports[transportId := Transport(true)]))
    {
      if !Registered(rooms, code, peerId, transportId) {
        return false;
      }
      var s := rooms[code].peers[peerId];
      var s' := s.(transports := s.transports[transportId := Transport(true)]);
      InstallSession(rooms, workers, nextHandle, nextHandle, code, peerId, s');
      rooms := WithSession(rooms, code, peerId, s');
      ok := true;
    }

    /** `produce`: `null`, with nothing registered, unless room, peer and
        transport all exist; otherwise a fresh producer on that transport is
        registered under the peer. */
    method Produce(code: string, peerId: string, transportId: HandleId, kind: string, rtpParameters: Blob)
      returns (producerId: Option<HandleId>)
      requires Valid()
      modifies this`rooms, this`nextHandle
      ensures Valid()
      ensures producerId.Some? <==> Registered(old(rooms), code, peerId, transportId)
      ensures producerId.None? ==> rooms == old(rooms) && nextHandle == old(nextHandle)
      ensures producerId.Some? ==> var s := old(rooms)[code].peers[peerId]; var id := producerId.value;
        && id == old(nextHandle) && id !in s.producers
        && rooms == WithSession(old(rooms), code, peerId, s.(producers := s.producers[id := Producer(transportId, kind)]))
        && nextHandle == old(nextHandle) + 1
    {
      if code !in rooms {
        return None;
      }
      if peerId !in rooms[code].peers {
        return None;
      }
      var s := rooms[code].peers[peerId];
      if transportId !in s.transports {
        return None;
      }
      var id := nextHandle;
      var s' := s.(producers := s.producers[id := Producer(transportId, kind)]);
      SessionGrows(s, s', nextHandle);
      InstallSession(rooms, workers, nextHandle, nextHandle + 1, code, peerId, s');
      rooms := WithSession(rooms, code, peerId, s');
      nextHandle := nextHandle + 1;
      producerId := Some(id);
    }

    /** `consume`: `null`, with nothing registered, when room, peer or
        transport is unknown or the engine's capability check refuses;
        otherwise a fresh consumer of that producer on that transport is
        registered under the peer. */
    method Consume(code: string, peerId: string, transportId: HandleId, producerId: HandleId, rtpCapabilities: Blob)
      returns (info: Option<ConsumerInfo>)
      requires Valid()
      modifies this`rooms, this`nextHandle
      ensures Valid()
      ensures info.Some? <==> Registered(old(rooms), code, peerId, transportId) && canConsume(producerId, rtpCapabilities)
      ensures info.None? ==> rooms == old(rooms) && nextHandle == old(nextHandle)
      ensures info.Some? ==> var s := old(rooms)[code].peers[peerId]; var id := info.value.id;
        && info.value.producerId == producerId
        && id == old(nextHandle) && id !in s.consumers
        && rooms == WithSession(old(rooms), code, peerId, s.(consumers := s.consumers[id := Consumer(transportId, producerId)]))
        && nextHandle == old(nextHandle) + 1
    {
      if code !in rooms {
        return None;
      }
      if peerId !in rooms[code].peers {
        return None;
      }
      var s := rooms[code].peers[peerId];
      if transportId !in s.transports {
        return None;
      }
      if !canConsume(producerId, rtpCapabilities) {
        return None;
      }
      var id := nextHandle;
      var s' := s.(consumers := s.consumers[id := Consumer(transportId, producerId)]);
      SessionGrows(s, s', nextHandle);
      InstallSession(rooms, workers, nextHandle, nextHandle + 1, code, peerId, s');
      rooms := WithSession(rooms, code, peerId, s');
      nextHandle := nextHandle + 1;
      info := Some(ConsumerInfo(id, producerId));
    }

    /** `getOtherProducers`: exactly the producers of the peers other than the
        caller, each once and tagged with its owner; `[]` for an unknown room. */
    method GetOtherProducers(code: string, peerId: string) returns (list: seq<ProducerEntry>)
      ensures code !in rooms ==> list == []
      ensures code in rooms ==> forall e :: e in list <==> OwnsProducer(rooms[code], e) && e.peerId != peerId
      ensures forall i, j :: 0 <= i < j < |list| ==> list[i] != list[j]
    {
      list := [];
      if code !in rooms {
        return;
      }
      var room := rooms[code];
      var restPeers := room.peers.Keys;
      while restPeers != {}
        invariant restPeers <= room.peers.Keys
        invariant forall e :: e in list <==> OwnsProducer(room, e) && e.peerId != peerId && e.peerId !in restPeers
        invariant forall i, j :: 0 <= i < j < |list| ==> list[i] != list[j]
        decreases restPeers
      {
        var pid :| pid in restPeers;
        if pid != peerId {
          var producers := room.peers[pid].producers;
          var restProducers := producers.Keys;
          while restProducers != {}
            invariant restProducers <= producers.Keys
            invariant forall e :: e in list <==>
              (OwnsProducer(room, e) && e.peerId != peerId && e.peerId !in restPeers)
              || (e.peerId == pid && e.producerId in producers && e.producerId !in restProducers)
            invariant forall i, j :: 0 <= i < j < |list| ==> list[i] != list[j]
            decreases restProducers
          {
            var pr :| pr in restProducers;
            list := list + [ProducerEntry(pid, pr)];
            restProducers := restProducers - {pr};
          }
        }
        restPeers := restPeers - {pid};
      }
    }

    /** The loop of `removePeer` that closes the peer's transports one by one;
        each close runs its event cascade. */
    method CloseAllTransports(code: string, peerId: string)
      requires code in rooms && peerId in rooms[code].peers
      modifies this`rooms
      ensures rooms == old(rooms)[code := CloseTransports(old(rooms)[code], peerId, old(rooms)[code].peers[peerId].transports.Keys)]
    {
      ghost var room0 := rooms[code];
      ghost var closed: set<HandleId> := {};
      var open := rooms[code].peers[peerId].transports.Keys;
      CloseNoTransport(room0, peerId);
      while open != {}
        invariant closed + open == room0.peers[peerId].transports.Keys
        invariant rooms == old(rooms)[code := CloseTransports(room0, peerId, closed)]
        decreases open
      {
        var t :| t in open;
        CloseTransportsCompose(room0, peerId, closed, {t});
        rooms := rooms[code := CloseTransports(rooms[code], peerId, {t})];
        closed := closed + {t};
        open := open - {t};
      }
    }

    /** The part of `removePeer` for a peer the room holds: all its transports
        closed, then its session deleted. */
    method DropSession(code: string, peerId: string)
      requires Valid() && code in rooms && peerId in rooms[code].peers
      modifies this`rooms
      ensures Valid()
      ensures rooms == old(rooms)[code := WithoutPeer(old(rooms)[code], peerId)]
    {
      var before := rooms;
      CloseAllTransports(code, peerId);
      assert RoomWellFormed(before[code], nextHandle);
      ClosingEveryTransport(before[code], peerId, nextHandle);
      var room := rooms[code].(peers := rooms[code].peers - {peerId});
      WithoutPeerWellFormed(before[code], peerId, nextHandle);
      ReplaceRoom(before, workers, nextHandle, code, room);
      rooms := before[code := room];
    }

    /** `removePeer`: closes every transport of the peer (cascading to its
        producers and to every consumer of them) and deletes its session; a
        room whose peer table is then empty is deleted with its routing context. */
    method RemovePeer(code: string, peerId: string)
      requires Valid()
      modifies this`rooms, this`liveRouters
      ensures Valid()
      ensures rooms == RemovePeerFrom(old(rooms), code, peerId)
      ensures liveRouters == if code in old(rooms) && code !in rooms
                             then old(liveRouters) - {old(rooms)[code].router.id}
                             else old(liveRouters)
    {
      if code !in rooms {
        return;
      }
      if peerId in rooms[code].peers {
        DropSession(code, peerId);
      }
      DeleteIfEmpty(code);
    }

    /** The end of `removePeer`: a room whose peer table is empty is deleted
        with its routing context; otherwise nothing changes. */
    method DeleteIfEmpty(code: string)
      requires Valid() && code in rooms
      modifies this`rooms, this`liveRouters
      ensures Valid()
      ensures old(rooms)[code].peers == map[] ==>
        && rooms == old(rooms) - {code}
        && liveRouters == old(liveRouters) - {old(rooms)[code].router.id}
      ensures old(rooms)[code].peers != map[] ==>
        rooms == old(rooms) && liveRouters == old(liveRouters)
    {
      if |rooms[code].peers| == 0 {
        assert rooms[code].peers == map[];
        DeleteRoom(code);
      }
    }

    /** `roomExists`. */
    function RoomExists(code: string): (b: bool)
      reads this
      ensures b <==> code in rooms
    {
      code in rooms
    }

    /** `getPeerCount`: 0 for an unknown room. */
    function GetPeerCount(code: string): (n: nat)
      reads this
      ensures code !in rooms ==> n == 0
      ensures code in rooms ==> n == |rooms[code].peers|
    {
      if code in rooms then |rooms[code].peers| else 0
    }

    /** `getRouterRtpCapabilities`: the routing context's capabilities, which
        the engine derives from its fixed codec; the context's id stands for them. */
    function RouterRtpCapabilities(code: string): (caps: Option<HandleId>)
      reads this
      ensures caps.Some? <==> code in rooms
      ensures caps.Some? ==> caps.value == rooms[code].router.id
    {
      if code in rooms then Some(rooms[code].router.id) else None
    }
  }
}
