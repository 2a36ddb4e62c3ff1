/** The registry as the server keeps it: a map of rooms and a map of pending
    timers (the injected setTimeout/clearTimeout) that its methods reassign, and
    the messages and closes handed to links, in order.  Each method is tied to
    the function of module Rooms that says what it does. */
module RoomRegistry {
  import opened Wrappers
  import opened Protocol
  import opened Rooms
  import opened RoomAnswers

  /** The part of a room object that module Rooms leaves out: which object it
      is (a closure captures the object, not the id), and its timer field. */
  datatype Handle = Handle(serial: nat, timer: Option<nat>)

  /** A pending timer and what its closure captured. */
  datatype Timer = Timer(roomId: RoomId, serial: nat, due: int, reason: ClosedReason)

  class RoomRegistry {
    const c: Config
    var rooms: Registry
    var handles: map<RoomId, Handle>
    var timers: map<nat, Timer>
    var nextTimer: nat
    var nextSerial: nat
    var effects: seq<Effect>

    constructor (c: Config)
      ensures Valid() && this.c == c && rooms == map[] && effects == []
    {
      this.c := c;
      rooms, handles, timers, nextTimer, nextSerial, effects := map[], map[], map[], 0, 0, [];
    }

    /** Pending timers and counting-down rooms are in one-to-one
        correspondence, and the room object a pending timer captured is the one
        still registered under its id. */
    ghost predicate Linked()
      reads this
    {
      && handles.Keys == rooms.Keys
      && (forall k {:trigger rooms[k]} :: k in rooms ==>
            && (handles[k].timer.Some? <==> rooms[k].deadline.Some?)
            && (handles[k].timer.Some? ==>
                  && handles[k].timer.value in timers
                  && timers[handles[k].timer.value] ==
                     Timer(k, handles[k].serial, rooms[k].deadline.value, ExpiryReason(rooms[k]))))
      && (forall t {:trigger timers[t]} :: t in timers ==>
            && t < nextTimer
            && timers[t].roomId in handles
            && handles[timers[t].roomId] == Handle(timers[t].serial, Some(t)))
    }

    ghost predicate Valid()
      reads this
    {
      && Linked()
      && RegistryOk(rooms)
    }

    method StopCountdown(roomId: RoomId)
      requires Linked() && roomId in rooms
      modifies `timers, `handles, `rooms
      ensures Linked()
      ensures rooms == old(rooms)[roomId := old(rooms)[roomId].(deadline := None)]
      ensures handles == old(handles)[roomId := old(handles)[roomId].(timer := None)]
    {
      if handles[roomId].timer.Some? {
        timers := timers - {handles[roomId].timer.value};
        handles := handles[roomId := handles[roomId].(timer := None)];
        rooms := rooms[roomId := rooms[roomId].(deadline := None)];
      }
    }

    method StartCountdown(roomId: RoomId, ms: int, reason: ClosedReason, now: int)
      requires Linked() && roomId in rooms && reason == ExpiryReason(rooms[roomId])
      modifies `timers, `handles, `rooms, `nextTimer
      ensures Linked()
      ensures rooms == old(rooms)[roomId := old(rooms)[roomId].(deadline := Some(now + ms))]
    {
      StopCountdown(roomId);
      Arm(roomId, now + ms, reason);
    }

    /** A new timer for a room that has none. */
    method Arm(roomId: RoomId, due: int, reason: ClosedReason)
      requires Linked() && roomId in rooms && rooms[roomId].deadline.None? && reason == ExpiryReason(rooms[roomId])
      modifies `timers, `handles, `rooms, `nextTimer
      ensures Linked()
      ensures rooms == old(rooms)[roomId := old(rooms)[roomId].(deadline := Some(due))]
    {
      rooms := rooms[roomId := rooms[roomId].(deadline := Some(due))];
      timers := timers[nextTimer := Timer(roomId, handles[roomId].serial, due, reason)];
      handles := handles[roomId := handles[roomId].(timer := Some(nextTimer))];
      nextTimer := nextTimer + 1;
    }

    /** Assigns fields of a room object other than its timer and deadline. */
    method SetRoom(roomId: RoomId, room: Room)
      requires Linked() && roomId in rooms
      requires room.deadline == rooms[roomId].deadline
      requires room.deadline.Some? ==> ExpiryReason(room) == ExpiryReason(rooms[roomId])
      modifies `rooms
      ensures Linked()
      ensures rooms == old(rooms)[roomId := room]
    {
      rooms := rooms[roomId := room];
    }

    /** rooms.set with a new room object that has no countdown yet. */
    method Insert(roomId: RoomId, room: Room)
      requires Linked() && roomId !in rooms && room.deadline.None?
      modifies `handles, `rooms, `nextSerial
      ensures Linked()
      ensures rooms == old(rooms)[roomId := room]
    {
      rooms := rooms[roomId := room];
      handles := handles[roomId := Handle(nextSerial, None)];
      nextSerial := nextSerial + 1;
    }

    /** A new room together with its first countdown. */
    method Open(roomId: RoomId, room: Room, ms: int, reason: ClosedReason, now: int)
      requires Valid() && roomId !in rooms
      requires room.id == roomId && room.deadline.None? && reason == ExpiryReason(room)
      requires RoomOk(room.(deadline := Some(now + ms)))
      modifies `timers, `handles, `rooms, `nextTimer, `nextSerial
      ensures Valid()
      ensures rooms == old(rooms)[roomId := room.(deadline := Some(now + ms))]
    {
      hide RegistryOk, RoomOk;
      OneMoreOk(rooms, roomId, room.(deadline := Some(now + ms)));
      Insert(roomId, room);
      StartCountdown(roomId, ms, reason, now);
      assert rooms == old(rooms)[roomId := room.(deadline := Some(now + ms))];
    }

    method IssueToken(room: Room) returns (token: Option<RecoveryPayload>)
      ensures token == Rooms.IssueToken(c, room)
    {
      if !c.recovery { return None; }
      token := Some(RecoveryPayload(room.id, room.createdAt, room.pairedAt, room.inviteWindowMs, room.graceDurationMs));
    }

    method DeleteRoom(roomId: RoomId)
      requires Linked() && roomId in rooms
      modifies `timers, `handles, `rooms
      ensures Linked()
      ensures rooms == old(rooms) - {roomId}
    {
      StopCountdown(roomId);
      rooms := rooms - {roomId};
      handles := handles - {roomId};
    }

    method CloseRoom(roomId: RoomId, reason: ClosedReason)
      requires Linked() && roomId in rooms
      modifies `timers, `handles, `rooms, `effects
      ensures Linked()
      ensures rooms == old(rooms) - {roomId}
      ensures effects == old(effects) + CloseEffects(old(rooms)[roomId].peers, reason)
    {
      var peers := rooms[roomId].peers;
      for i := 0 to |peers|
        modifies `effects
        invariant effects == old(effects) + CloseEffects(peers[..i], reason)
      {
        assert peers[..i + 1][..i] == peers[..i];
        effects := effects + [Send(peers[i].link, RoomClosed(reason))];
        effects := effects + [Close(peers[i].link)];
      }
      assert peers[..|peers|] == peers;
      DeleteRoom(roomId);
    }

    method SendAll(peers: seq<Peer>, msg: ServerMessage)
      modifies `effects
      ensures effects == old(effects) + Broadcast(peers, msg)
    {
      for i := 0 to |peers|
        invariant effects == old(effects) + Broadcast(peers[..i], msg)
      {
        assert peers[..i + 1][..i] == peers[..i];
        effects := effects + [Send(peers[i].link, msg)];
      }
      assert peers[..|peers|] == peers;
    }

    /** A created room has the allowed periods nearest to what was asked for each. */
    method Create(roomId: RoomId, invite: Millis, grace: Millis, peer: PeerId, link: Link, now: int)
      returns (result: Result)
      requires Valid()
      modifies this
      ensures Valid()
      ensures result.CreateOk? <==>
                && IsPathToken(roomId.text) && invite.Finite? && grace.Finite?
                && roomId !in old(rooms) && |old(rooms)| < c.maxRooms
      ensures result.CreateOk? ==>
                && roomId in rooms && rooms[roomId].createdAt == now
                && IsNearest(rooms[roomId].inviteWindowMs, invite.ms, INVITE_WINDOW_MIN_MS, INVITE_WINDOW_MAX_MS)
                && IsNearest(rooms[roomId].graceDurationMs, grace.ms, GRACE_MIN_MS, GRACE_MAX_MS)
      ensures Outcome(rooms, result, effects) ==
              After(old(effects), Rooms.Create(c, old(rooms), roomId, invite, grace, peer, link, now))
    {
      CreateAnswers(c, rooms, roomId, invite, grace, peer, link, now);
      result := Creates(roomId, invite, grace, peer, link, now);
    }

    method Creates(roomId: RoomId, invite: Millis, grace: Millis, peer: PeerId, link: Link, now: int)
      returns (result: Result)
      requires Valid()
      modifies this
      ensures Valid()
      ensures Outcome(rooms, result, effects) ==
              After(old(effects), Rooms.Create(c, old(rooms), roomId, invite, grace, peer, link, now))
    {
      if !IsPathToken(roomId.text) || invite.NonFinite? || grace.NonFinite? {
        return Refused(ConfigInvalid);
      }
      if roomId in rooms {
        return Refused(RoomExists);
      }
      if |rooms| >= c.maxRooms {
        return Refused(RateLimited);
      }
      var room := Room(roomId, Waiting, [Peer(peer, link)], Some(peer), ClampInviteWindow(invite.ms),
                       ClampGrace(grace.ms), None, now, None);
      Open(roomId, room, room.inviteWindowMs, InviteExpired, now);
      var token := IssueToken(room);
      result := CreateOk(peer, token);
    }

    /** Rebuilds a room from a presented token, when the token allows it. */
    method RecoverRoom(roomId: RoomId, token: Option<Presented>, now: int) returns (found: bool)
      requires Valid() && roomId !in rooms
      modifies `timers, `handles, `rooms, `nextTimer, `nextSerial
      ensures Valid()
      ensures var r := Rooms.Recover(c, old(rooms), roomId, token, now);
              found == r.Some? && rooms == if r.Some? then old(rooms)[roomId := r.value] else old(rooms)
    {
      if token.None? || !c.recovery || token.value.Bogus? {
        return false;
      }
      var p := token.value.payload;
      if p.roomId != roomId {
        return false;
      }
      if |rooms| >= c.maxRooms {
        return false;
      }
      if p.pairedAt.None? {
        if now - p.createdAt > p.inviteWindowMs {
          return false;
        }
        var room := Room(roomId, Waiting, [], None, p.inviteWindowMs, p.graceDurationMs, None, p.createdAt, None);
        var remaining := p.createdAt + p.inviteWindowMs - now;
        Open(roomId, room, remaining, InviteExpired, now);
      } else {
        if now - p.pairedAt.value > c.maxAgeMs {
          return false;
        }
        var room := Room(roomId, Grace, [], None, p.inviteWindowMs, p.graceDurationMs, None, p.createdAt, p.pairedAt);
        Open(roomId, room, room.graceDurationMs, GraceExpired, now);
      }
      found := true;
    }

    /** Let through exactly with a free place in the registered room, or with a token
        that revives the room. */
    method Join(roomId: RoomId, token: Option<Presented>, peer: PeerId, link: Link, now: int)
      returns (result: Result)
      requires Valid()
      requires roomId in rooms ==> !HasPeer(rooms[roomId], peer)
      modifies this
      ensures Valid()
      ensures result.JoinOk? <==> if roomId in old(rooms) then |old(rooms)[roomId].peers| < 2
                                  else Revives(c, old(rooms), roomId, token, now)
      ensures result.JoinOk? ==> roomId in rooms && Peer(peer, link) in rooms[roomId].peers
      ensures Outcome(rooms, result, effects) ==
              After(old(effects), Rooms.Join(c, old(rooms), roomId, token, peer, link, now))
    {
      JoinIsAnswered(c, rooms, roomId, token, peer, link, now);
      if roomId !in rooms {
        var found := RecoverRoom(roomId, token, now);
        if !found {
          return Refused(RoomNotFound);
        }
        AdmitFromMap(c, old(rooms), roomId, rooms[roomId], peer, link, now);
      }
      result := Admit(roomId, peer, link, now);
    }

    /** The rest of join(), once the room is in the map. */
    method Admit(roomId: RoomId, peer: PeerId, link: Link, now: int) returns (result: Result)
      requires Valid() && roomId in rooms && !HasPeer(rooms[roomId], peer)
      modifies this
      ensures Valid()
      ensures result.JoinOk? <==> |old(rooms)[roomId].peers| < 2
      ensures result.JoinOk? ==> roomId in rooms && rooms[roomId].peers == old(rooms)[roomId].peers + [Peer(peer, link)]
      ensures Outcome(rooms, result, effects) ==
              After(old(effects), Rooms.Admit(c, old(rooms), roomId, old(rooms)[roomId], peer, link, now))
    {
      JoinAnswers(c, rooms, roomId, None, peer, link, now);
      AdmitKeepsOk(c, rooms, roomId, rooms[roomId], peer, link, now);
      if |rooms[roomId].peers| >= CAPACITY {
        return Refused(RoomIsFull);
      }
      result := Enter(roomId, peer, link, now);
    }

    /** There is room for the newcomer. */
    method Enter(roomId: RoomId, peer: PeerId, link: Link, now: int) returns (result: Result)
      requires Linked() && roomId in rooms && |rooms[roomId].peers| < CAPACITY
      modifies this
      ensures Linked()
      ensures Outcome(rooms, result, effects) ==
              After(old(effects), Rooms.Admit(c, old(rooms), roomId, old(rooms)[roomId], peer, link, now))
    {
      var peers := rooms[roomId].peers;
      Pair(roomId, now);
      var room := rooms[roomId];
      var token := IssueToken(room);
      SendAll(peers, PeerJoined(peer, token));
      SetRoom(roomId, room.(peers := peers + [Peer(peer, link)]));
      assert rooms == old(rooms)[roomId := room.(peers := peers + [Peer(peer, link)])];
      result := JoinOk(peer, Ids(peers), room.graceDurationMs, token);
    }

    /** The second peer pairs the room and ends its countdown. */
    method Pair(roomId: RoomId, now: int)
      requires Linked() && roomId in rooms
      modifies `timers, `handles, `rooms
      ensures Linked()
      ensures rooms == old(rooms)[roomId := PairedBy(old(rooms)[roomId], now)]
    {
      if |rooms[roomId].peers| + 1 == CAPACITY {
        StopCountdown(roomId);
        SetRoom(roomId, rooms[roomId].(state := Paired, pairedAt := Some(now)));
      } else {
        assert rooms == rooms[roomId := rooms[roomId]];
      }
    }

    method Leave(roomId: RoomId, peer: PeerId)
      requires Valid()
      modifies this
      ensures Valid()
      ensures Outcome(rooms, Done, effects) == After(old(effects), Rooms.Leave(old(rooms), roomId, peer))
    {
      if roomId !in rooms || !HasPeer(rooms[roomId], peer) {
        return;
      }
      SetRoom(roomId, rooms[roomId].(peers := WithoutPeer(rooms[roomId].peers, peer)));
      CloseRoom(roomId, PeerEnded);
      assert rooms == old(rooms) - {roomId};
    }

    method StartGrace(roomId: RoomId, now: int)
      requires Linked() && roomId in rooms && rooms[roomId].deadline.None?
      modifies `timers, `handles, `rooms, `nextTimer
      ensures Linked()
      ensures var room := old(rooms)[roomId];
              rooms == old(rooms)[roomId := room.(state := Grace, deadline := Some(now + room.graceDurationMs))]
    {
      SetRoom(roomId, rooms[roomId].(state := Grace));
      StartCountdown(roomId, rooms[roomId].graceDurationMs, GraceExpired, now);
    }

    /** The state part of disconnect(), the peer already removed. */
    method AfterDrop(roomId: RoomId, peer: PeerId, now: int)
      requires Linked() && roomId in rooms && (rooms[roomId].state == Paired ==> rooms[roomId].deadline.None?)
      modifies `timers, `handles, `rooms, `nextTimer, `effects
      ensures Linked()
      ensures var o := Dropped(old(rooms), roomId, peer, now);
              rooms == o.reg && effects == old(effects) + o.effects
    {
      match rooms[roomId].state {
        case Waiting =>
        case Paired =>
          StartGrace(roomId, now);
          SendAll(rooms[roomId].peers, PeerLeft(peer));
        case Grace =>
      }
    }

    method Disconnect(roomId: RoomId, peer: PeerId, now: int)
      requires Valid()
      modifies this
      ensures Valid()
      ensures Outcome(rooms, Done, effects) == After(old(effects), Rooms.Disconnect(old(rooms), roomId, peer, now))
    {
      if roomId !in rooms || !HasPeer(rooms[roomId], peer) {
        return;
      }
      DisconnectKeepsOk(rooms, roomId, peer, now);
      SetRoom(roomId, rooms[roomId].(peers := WithoutPeer(rooms[roomId].peers, peer)));
      AfterDrop(roomId, peer, now);
    }

    /** Between two members exactly this message goes out, and to nobody else. */
    method Signal(roomId: RoomId, from: PeerId, to: PeerId, payload: string)
      requires Valid()
      modifies `effects
      ensures Valid()
      ensures forall a, b :: roomId in rooms && Peer(from, a) in rooms[roomId].peers && Peer(to, b) in rooms[roomId].peers ==>
                effects == old(effects) + [Send(b, ServerMessage.Signal(from, payload))]
      ensures effects == old(effects) + Relay(rooms, roomId, from, to, payload)
    {
      RelayAnswers(rooms, roomId, from, to, payload);
      if roomId !in rooms || !HasPeer(rooms[roomId], from) || !HasPeer(rooms[roomId], to) {
        return;
      }
      effects := effects + [Send(LinkOf(rooms[roomId].peers, to), ServerMessage.Signal(from, payload))];
    }

    /** The environment fires a pending timer: its closure closes the room
        object it captured, which is the one registered under that id. */
    method Fire(t: nat)
      requires Valid() && t in timers
      modifies this
      ensures Valid()
      ensures old(timers)[t].roomId in old(rooms)
      ensures old(handles)[old(timers)[t].roomId].serial == old(timers)[t].serial
      ensures old(rooms)[old(timers)[t].roomId].deadline == Some(old(timers)[t].due)
      ensures Outcome(rooms, Done, effects) == After(old(effects), Rooms.Expire(old(rooms), old(timers)[t].roomId))
    {
      CloseRoom(timers[t].roomId, timers[t].reason);
    }
  }

  /** An outcome preceded by earlier effects. */
  ghost function After(before: seq<Effect>, o: Outcome): Outcome {
    o.(effects := before + o.effects)
  }

  lemma OneMoreOk(reg: Registry, roomId: RoomId, room: Room)
    requires RegistryOk(reg) && room.id == roomId && RoomOk(room)
    ensures RegistryOk(reg[roomId := room])
  {
    hide RoomOk;
  }
}
