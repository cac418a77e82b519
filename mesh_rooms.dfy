/** The mesh-room registry and its admission control (backend/src/services/rooms.ts).

    One table from room code to room record. Every operation upper-cases the
    code it is given before the lookup, and generated codes are stored
    upper-case, so the table only ever holds upper-case keys. A peer of a room
    moves from no state to pending (a join request), to active (approval, or
    directly by becoming host), and back to nothing (rejection or leaving). */
module MeshRooms {
  import opened Common

  /** A room record: the host (if one has been set), the active peers, the
      pending join requests (peer id to display name), the screen-share switch
      and the peers allowed to record. */
  datatype MeshRoom = MeshRoom(
    hostId: Option<string>,
    peers: set<string>,
    pending: map<string, string>,
    screenShareEnabled: bool,
    recordingAllowed: set<string>)

  /** The record `createRoom` stores. */
  const EmptyRoom := MeshRoom(None, {}, map[], false, {})

  datatype PendingEntry = PendingEntry(peerId: string, name: string)

  datatype RoomSettings = RoomSettings(screenShareEnabled: bool, recordingAllowed: seq<string>)

  /** Where a peer stands in the admission state machine of one room. */
  datatype Admission = NotAdmitted | Pending | Active

  function AdmissionOf(room: MeshRoom, peerId: string): Admission {
    if peerId in room.peers then Active
    else if peerId in room.pending then Pending
    else NotAdmitted
  }

  /** The host, once set, is an active peer and may always record. */
  ghost predicate HostWellPlaced(room: MeshRoom) {
    room.hostId.Some? ==> room.hostId.value in room.peers && room.hostId.value in room.recordingAllowed
  }

  /** `generateCode`: characters 2 to 8 of the base-36 text of a random
      number (JavaScript `substring` clamps both ends to the length), upper-cased.
      The random text is a parameter. */
  function GenerateCode(base36: string): (code: string)
    ensures |code| <= 6
    ensures |base36| >= 8 ==> |code| == 6
    ensures |base36| >= 8 ==> code == Upper(base36[2..8])
    ensures 2 <= |base36| < 8 ==> code == Upper(base36[2..])
    ensures |base36| < 2 ==> code == []
    ensures IsUpperCase(code)
    ensures Upper(code) == code
  {
    var code := Upper(base36[Min(2, |base36|)..Min(8, |base36|)]);
    UpperOfUpperCase(code);
    code
  }

  class Registry {
    var rooms: map<string, MeshRoom>

    /** Keys are normalised codes, and every room keeps its host placed. */
    ghost predicate Valid()
      reads this
    {
      forall code :: code in rooms ==> Upper(code) == code && HostWellPlaced(rooms[code])
    }

    constructor ()
      ensures Valid() && rooms == map[]
    {
      rooms := map[];
    }

    /** `createRoom`: stores a fresh record under a generated code. There is no
        collision check: an existing room with that code is overwritten. */
    method CreateRoom(base36: string) returns (code: string)
      requires Valid()
      modifies this
      ensures Valid()
      ensures code == GenerateCode(base36)
      ensures rooms == old(rooms)[code := EmptyRoom]
    {
      code := GenerateCode(base36);
      rooms := rooms[code := EmptyRoom];
    }

    /** `getRoom`: the record stored under the normalised code, if any. */
    function GetRoom(code: string): (r: Option<MeshRoom>)
      reads this
      ensures r.Some? <==> Upper(code) in rooms
      ensures r.Some? ==> r.value == rooms[Upper(code)]
    {
      if Upper(code) in rooms then Some(rooms[Upper(code)]) else None
    }

    /** `setHost`: the peer becomes host, an active peer and a permitted
        recorder. Repeating it for the current host changes nothing. */
    method SetHost(code: string, peerId: string) returns (ok: bool)
      requires Valid()
      modifies this
      ensures Valid()
      ensures ok <==> Upper(code) in old(rooms)
      ensures !ok ==> rooms == old(rooms)
      ensures ok ==> var key := Upper(code); var r := old(rooms)[key];
        rooms == old(rooms)[key := r.(hostId := Some(peerId), peers := r.peers + {peerId},
                                      recordingAllowed := r.recordingAllowed + {peerId})]
      ensures ok ==> AdmissionOf(rooms[Upper(code)], peerId) == Active
      ensures ok && old(rooms)[Upper(code)].hostId == Some(peerId) ==> rooms == old(rooms)
    {
      var key := Upper(code);
      if key !in rooms {
        return false;
      }
      var r := rooms[key];
      if r.hostId == Some(peerId) {
        assert r.peers + {peerId} == r.peers && r.recordingAllowed + {peerId} == r.recordingAllowed;
      }
      rooms := rooms[key := r.(hostId := Some(peerId), peers := r.peers + {peerId},
                               recordingAllowed := r.recordingAllowed + {peerId})];
      ok := true;
    }

    /** `requestJoin`: records (or overwrites) the pending request; the active
        peers are untouched. */
    method RequestJoin(code: string, peerId: string, name: string) returns (ok: bool)
      requires Valid()
      modifies this
      ensures Valid()
      ensures ok <==> Upper(code) in old(rooms)
      ensures !ok ==> rooms == old(rooms)
      ensures ok ==> var key := Upper(code); var r := old(rooms)[key];
        rooms == old(rooms)[key := r.(pending := r.pending[peerId := name])]
      ensures ok ==> rooms[Upper(code)].pending[peerId] == name
      ensures ok ==> rooms[Upper(code)].peers == old(rooms)[Upper(code)].peers
    {
      var key := Upper(code);
      if key !in rooms {
        return false;
      }
      var r := rooms[key];
      rooms := rooms[key := r.(pending := r.pending[peerId := name])];
      ok := true;
    }

    /** `approveJoin`: the peer leaves the pending table and joins the active
        peers; the whole active set is returned. Approving an active peer with
        no pending request changes nothing and returns the same set. */
    method ApproveJoin(code: string, peerId: string) returns (peers: Option<seq<string>>)
      requires Valid()
      modifies this
      ensures Valid()
      ensures peers.Some? <==> Upper(code) in old(rooms)
      ensures peers.None? ==> rooms == old(rooms)
      ensures peers.Some? ==> var key := Upper(code); var r := old(rooms)[key];
        && rooms == old(rooms)[key := r.(pending := r.pending - {peerId}, peers := r.peers + {peerId})]
        && |peers.value| == |rooms[key].peers|
        && (forall p :: p in peers.value <==> p in rooms[key].peers)
      ensures peers.Some? ==>
        AdmissionOf(rooms[Upper(code)], peerId) == Active && peerId !in rooms[Upper(code)].pending
      ensures (peers.Some? && peerId in old(rooms)[Upper(code)].peers
               && peerId !in old(rooms)[Upper(code)].pending) ==> rooms == old(rooms)
    {
      var key := Upper(code);
      if key !in rooms {
        return None;
      }
      var r := rooms[key];
      if peerId in r.peers && peerId !in r.pending {
        assert r.pending - {peerId} == r.pending && r.peers + {peerId} == r.peers;
      }
      r := r.(pending := r.pending - {peerId}, peers := r.peers + {peerId});
      rooms := rooms[key := r];
      var all := Enumerate(r.peers);
      peers := Some(all);
    }

    /** `rejectJoin`: only the pending request goes; active peers and
        recording permissions are unchanged. */
    method RejectJoin(code: string, peerId: string) returns (ok: bool)
      requires Valid()
      modifies this
      ensures Valid()
      ensures ok <==> Upper(code) in old(rooms)
      ensures !ok ==> rooms == old(rooms)
      ensures ok ==> var key := Upper(code); var r := old(rooms)[key];
        rooms == old(rooms)[key := r.(pending := r.pending - {peerId})]
      ensures ok ==> peerId !in rooms[Upper(code)].pending
    {
      var key := Upper(code);
      if key !in rooms {
        return false;
      }
      var r := rooms[key];
      rooms := rooms[key := r.(pending := r.pending - {peerId})];
      ok := true;
    }

    /** `getPending`: every pending request exactly once; `[]` for an unknown room. */
    method GetPending(code: string) returns (entries: seq<PendingEntry>)
      ensures Upper(code) !in rooms ==> entries == []
      ensures Upper(code) in rooms ==> var pending := rooms[Upper(code)].pending;
        && |entries| == |pending|
        && (forall e :: e in entries <==> e.peerId in pending && pending[e.peerId] == e.name)
      ensures forall i, j :: 0 <= i < j < |entries| ==> entries[i].peerId != entries[j].peerId
    {
      var key := Upper(code);
      if key !in rooms {
        return [];
      }
      var es := Entries(rooms[key].pending);
      entries := seq(|es|, i requires 0 <= i < |es| => PendingEntry(es[i].0, es[i].1));
      forall e | e in entries
        ensures e.peerId in rooms[key].pending && rooms[key].pending[e.peerId] == e.name
      {
        var i :| 0 <= i < |entries| && entries[i] == e;
        assert es[i] in es;
      }
      forall e: PendingEntry | e.peerId in rooms[key].pending && rooms[key].pending[e.peerId] == e.name
        ensures e in entries
      {
        var i :| 0 <= i < |es| && es[i] == (e.peerId, e.name);
        assert entries[i] == e;
      }
    }

    /** `leaveRoom`: the peer is dropped from the active peers, the pending
        table and the recording permissions; the room itself is destroyed when
        the leaver was its host or nobody active remains. Other rooms are untouched. */
    method LeaveRoom(code: string, peerId: string)
      requires Valid()
      modifies this
      ensures Valid()
      ensures Upper(code) !in old(rooms) ==> rooms == old(rooms)
      ensures Upper(code) in old(rooms) ==> var key := Upper(code); var r := old(rooms)[key];
        var left := r.(peers := r.peers - {peerId}, pending := r.pending - {peerId},
                       recordingAllowed := r.recordingAllowed - {peerId});
        rooms == if r.hostId == Some(peerId) || left.peers == {} then old(rooms) - {key}
                 else old(rooms)[key := left]
      ensures Upper(code) in rooms ==> AdmissionOf(rooms[Upper(code)], peerId) == NotAdmitted
      ensures forall other :: other in old(rooms) && other != Upper(code) ==>
        other in rooms && rooms[other] == old(rooms)[other]
    {
      var key := Upper(code);
      if key !in rooms {
        return;
      }
      var r := rooms[key];
      r := r.(peers := r.peers - {peerId}, pending := r.pending - {peerId},
              recordingAllowed := r.recordingAllowed - {peerId});
      if r.hostId == Some(peerId) {
        rooms := rooms - {key};
      } else if |r.peers| == 0 {
        rooms := rooms - {key};
      } else {
        rooms := rooms[key := r];
      }
    }

    /** `setScreenShare`. */
    method SetScreenShare(code: string, enabled: bool) returns (ok: bool)
      requires Valid()
      modifies this
      ensures Valid()
      ensures ok <==> Upper(code) in old(rooms)
      ensures !ok ==> rooms == old(rooms)
      ensures ok ==> var key := Upper(code);
        rooms == old(rooms)[key := old(rooms)[key].(screenShareEnabled := enabled)]
    {
      var key := Upper(code);
      if key !in rooms {
        return false;
      }
      rooms := rooms[key := rooms[key].(screenShareEnabled := enabled)];
      ok := true;
    }

    /** `allowRecording`: always adds the peer, whether active or not. */
    method AllowRecording(code: string, peerId: string) returns (ok: bool)
      requires Valid()
      modifies this
      ensures Valid()
      ensures ok <==> Upper(code) in old(rooms)
      ensures !ok ==> rooms == old(rooms)
      ensures ok ==> var key := Upper(code); var r := old(rooms)[key];
        rooms == old(rooms)[key := r.(recordingAllowed := r.recordingAllowed + {peerId})]
    {
      var key := Upper(code);
      if key !in rooms {
        return false;
      }
      var r := rooms[key];
      rooms := rooms[key := r.(recordingAllowed := r.recordingAllowed + {peerId})];
      ok := true;
    }

    /** `disallowRecording`: removes the permission of anybody but the host;
        for the host it silently does nothing (and still reports success). */
    method DisallowRecording(code: string, peerId: string) returns (ok: bool)
      requires Valid()
      modifies this
      ensures Valid()
      ensures ok <==> Upper(code) in old(rooms)
      ensures !ok ==> rooms == old(rooms)
      ensures ok ==> var key := Upper(code); var r := old(rooms)[key];
        rooms == if r.hostId == Some(peerId) then old(rooms)
                 else old(rooms)[key := r.(recordingAllowed := r.recordingAllowed - {peerId})]
      ensures ok ==> var r := rooms[Upper(code)];
        r.hostId.Some? ==> r.hostId.value in r.recordingAllowed
    {
      var key := Upper(code);
      if key !in rooms {
        return false;
      }
      var r := rooms[key];
      if r.hostId != Some(peerId) {
        rooms := rooms[key := r.(recordingAllowed := r.recordingAllowed - {peerId})];
      }
      ok := true;
    }

    /** `getRoomSettings`: the screen-share switch and every permitted
        recorder exactly once; `null` for an unknown room. */
    method GetRoomSettings(code: string) returns (settings: Option<RoomSettings>)
      ensures settings.Some? <==> Upper(code) in rooms
      ensures settings.Some? ==> var r := rooms[Upper(code)];
        && settings.value.screenShareEnabled == r.screenShareEnabled
        && |settings.value.recordingAllowed| == |r.recordingAllowed|
        && (forall p :: p in settings.value.recordingAllowed <==> p in r.recordingAllowed)
    {
      var key := Upper(code);
      if key !in rooms {
        return None;
      }
      var allowed := Enumerate(rooms[key].recordingAllowed);
      settings := Some(RoomSettings(rooms[key].screenShareEnabled, allowed));
    }
  }

  /** Lookups ignore the case of the code: a lower-case spelling reaches the
      same room as the upper-case one. */
  lemma LookupIgnoresCase(reg: Registry, code: string)
    ensures reg.GetRoom(Lower(code)) == reg.GetRoom(code)
    ensures reg.GetRoom(Upper(code)) == reg.GetRoom(code)
  {
    UpperOfLower(code);
    UpperIdempotent(code);
  }
}
