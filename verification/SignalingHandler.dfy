/** The handler itself: one registry, and the variables each socket's closure
    keeps, updated event by event. */
module SignalingHandler {
  import opened Wrappers
  import opened Protocol
  import opened Rooms
  import opened Signaling
  import opened SignalingTheorems
  import opened SignalingAnswers
  import RoomRegistry

  class SignalingHandler {
    const registry: RoomRegistry.RoomRegistry
    var sockets: map<Link, Socket>

    constructor (registry: RoomRegistry.RoomRegistry)
      requires registry.Valid() && registry.rooms == map[]
      ensures Valid() && this.registry == registry && Value() == Server(map[], map[])
    {
      this.registry := registry;
      sockets := map[];
    }

    /** Between two events: every registered peer is a live socket that names it back
        and whose client knows exactly who else is there and holds a current token,
        no socket is in two rooms, and the registry's timers match its rooms. */
    ghost predicate Valid()
      reads this, registry
    {
      registry.Valid() && ServerOk(registry.c, Value())
    }

    ghost function Value(): Server
      reads this, registry
    {
      Server(registry.rooms, sockets)
    }

    /** crypto.randomUUID(): an id no registered peer has. */
    ghost predicate Unused(peer: PeerId)
      reads this, registry
    {
      forall k :: k in registry.rooms ==> !HasPeer(registry.rooms[k], peer)
    }

    method Reply(link: Link, msg: ServerMessage)
      modifies `sockets
      ensures Value() == Signaling.Reply(old(Value()), link, msg)
    {
      if link in sockets && sockets[link].ready == Opened {
        sockets := sockets[link := sockets[link].(inbox := sockets[link].inbox + [msg])];
      }
    }

    method Close(link: Link)
      modifies `sockets
      ensures Value() == Signaling.StartClosing(old(Value()), link)
    {
      if link in sockets && sockets[link].ready == Opened {
        sockets := sockets[link := sockets[link].(ready := Closing)];
      }
    }

    /** An idle, oversized or malformed socket is closed: it accepts nothing more, and
        every other socket and room is as it was. */
    method StartClosing(link: Link)
      requires Valid()
      modifies `sockets
      ensures Valid() && sockets.Keys == old(sockets).Keys
      ensures link in sockets ==>
                sockets[link].ready != Opened && sockets[link] == old(sockets)[link].(ready := sockets[link].ready)
      ensures forall l :: l in sockets && l != link ==> sockets[l] == old(sockets)[l]
    {
      StartClosingKeeps(registry.c, Value(), link);
      Close(link);
    }

    /** The sends and closes of one registry call reach the sockets. */
    method DeliverFrom(first: nat)
      requires first <= |registry.effects|
      modifies `sockets
      ensures sockets == Deliver(old(sockets), registry.effects[first..])
    {
      for i := first to |registry.effects|
        invariant sockets == Deliver(old(sockets), registry.effects[first..i])
      {
        var e := registry.effects[i];
        assert registry.effects[first..i + 1] == registry.effects[first..i] + [e];
        sockets := Perform(sockets, e);
      }
      assert registry.effects[first..|registry.effects|] == registry.effects[first..];
    }

    /** A new socket is in no room; it stays open exactly if the connection limiter
        allowed it. */
    method OnOpen(link: Link, allowed: bool)
      requires Valid() && link !in sockets
      modifies `sockets
      ensures Valid() && sockets.Keys == old(sockets).Keys + {link}
      ensures sockets[link].room.None? && sockets[link].peer.None? && (sockets[link].ready == Opened <==> allowed)
      ensures forall l :: l in old(sockets) ==> sockets[l] == old(sockets)[l]
    {
      ConnectKeeps(registry.c, Value(), link);
      sockets := sockets[link := Socket(Opened, None, None, [])];
      if !allowed {
        StartClosing(link);
      }
    }

    method OnCreate(link: Link, roomId: RoomId, invite: Millis, grace: Millis, peer: PeerId, now: int)
      requires registry.Valid() && link in sockets
      modifies this, registry
      ensures registry.Valid()
      ensures Value() == Signaling.OnCreate(registry.c, old(Value()), link, roomId, invite, grace, peer, now)
    {
      var first := |registry.effects|;
      var result := registry.Create(roomId, invite, grace, peer, link, now);
      DeliverFrom(first);
      if result.Refused? {
        Reply(link, ErrorMessage(result.code));
        return;
      }
      sockets := sockets[link := sockets[link].(room := Some(roomId), peer := Some(peer))];
      Reply(link, Created(peer, result.token));
    }

    method OnJoin(link: Link, roomId: RoomId, token: Option<Presented>, peer: PeerId, now: int)
      requires registry.Valid() && link in sockets && Unused(peer)
      modifies this, registry
      ensures registry.Valid()
      ensures Value() == Signaling.OnJoin(registry.c, old(Value()), link, roomId, token, peer, now)
    {
      var first := |registry.effects|;
      var result := registry.Join(roomId, token, peer, link, now);
      DeliverFrom(first);
      if result.Refused? {
        Reply(link, ErrorMessage(result.code));
        if result.code == RoomIsFull {
          Close(link);
        }
        return;
      }
      sockets := sockets[link := sockets[link].(room := Some(roomId), peer := Some(peer))];
      Reply(link, Joined(peer, result.participants, result.graceDurationMs, result.token));
    }

    method OnLeave(link: Link)
      requires registry.Valid() && link in sockets
      modifies this, registry
      ensures registry.Valid()
      ensures var s := old(sockets)[link];
              Value() == if s.room.None? || s.peer.None? then old(Value())
                         else Settle(Forget(old(Value()), link), Leave(old(registry.rooms), s.room.value, s.peer.value))
    {
      var s := sockets[link];
      if s.room.None? || s.peer.None? {
        return;
      }
      sockets := sockets[link := s.(room := None, peer := None)];
      var first := |registry.effects|;
      registry.Leave(s.room.value, s.peer.value);
      DeliverFrom(first);
    }

    /** A member's signal reaches the open socket of the member it names, and no other. */
    method OnSignal(link: Link, roomId: RoomId, to: PeerId, payload: string)
      requires registry.Valid() && link in sockets
      modifies this, registry
      ensures registry.Valid()
      ensures var s := old(sockets)[link];
              forall b :: && s.room == Some(roomId) && s.peer.Some? && roomId in old(registry.rooms)
                          && HasPeer(old(registry.rooms)[roomId], s.peer.value)
                          && Peer(to, b) in old(registry.rooms)[roomId].peers
                          && b in old(sockets) && old(sockets)[b].ready == Opened
                          ==> OnlyTold(old(Value()), Value(), b, ServerMessage.Signal(s.peer.value, payload))
      ensures var s := old(sockets)[link];
              Value() == if s.room == Some(roomId) && s.peer.Some?
                         then Settle(old(Value()), Outcome(old(registry.rooms), Done,
                                       Relay(old(registry.rooms), roomId, s.peer.value, to, payload)))
                         else old(Value())
    {
      var s := sockets[link];
      if s.room == Some(roomId) && s.peer.Some? {
        var first := |registry.effects|;
        forall b | && roomId in registry.rooms && HasPeer(registry.rooms[roomId], s.peer.value)
                   && Peer(to, b) in registry.rooms[roomId].peers && b in sockets && sockets[b].ready == Opened
          ensures OnlyTold(Value(), Settle(Value(), Outcome(registry.rooms, Done, Relay(registry.rooms, roomId, s.peer.value, to, payload))),
                           b, ServerMessage.Signal(s.peer.value, payload))
        {
          RelayIsDelivered(Value(), roomId, s.peer.value, Peer(to, b), payload);
        }
        registry.Signal(roomId, s.peer.value, to, payload);
        DeliverFrom(first);
      }
    }

    /** One message of an open socket. */
    method OnMessage(link: Link, msg: ClientMessage, lim: Limits, peer: PeerId, now: int)
      requires Valid() && Fresh(Value(), peer)
      modifies this, registry
      ensures Valid()
      ensures Value() == Signaling.OnMessage(registry.c, old(Value()), link, msg, lim, peer, now)
    {
      forall k | k in registry.rooms ensures !HasPeer(registry.rooms[k], peer) {
        FreshInRooms(registry.c, Value(), peer, k);
      }
      MessageKeeps(registry.c, Value(), link, msg, lim, peer, now);
      Dispatch(link, msg, lim, peer, now);
    }

    method Dispatch(link: Link, msg: ClientMessage, lim: Limits, peer: PeerId, now: int)
      requires registry.Valid() && Unused(peer)
      modifies this, registry
      ensures registry.Valid()
      ensures Value() == Signaling.OnMessage(registry.c, old(Value()), link, msg, lim, peer, now)
    {
      if link !in sockets || sockets[link].ready != Opened {
        return;
      }
      if !lim.message {
        Reply(link, ErrorMessage(RateLimited));
        return;
      }
      match msg {
        case Ping =>
          Reply(link, Pong);
        case CreateRequest(roomId, invite, grace) =>
          if sockets[link].peer.Some? {
            Reply(link, ErrorMessage(ConfigInvalid));
          } else if !lim.request {
            Reply(link, ErrorMessage(RateLimited));
          } else {
            OnCreate(link, roomId, invite, grace, peer, now);
          }
        case JoinRequest(roomId, token) =>
          if sockets[link].peer.Some? {
            Reply(link, ErrorMessage(ConfigInvalid));
          } else if !lim.request {
            Reply(link, ErrorMessage(RateLimited));
          } else {
            OnJoin(link, roomId, token, peer, now);
          }
        case SignalRequest(roomId, to, payload) =>
          OnSignal(link, roomId, to, payload);
        case LeaveRequest =>
          OnLeave(link);
      }
    }

    /** The last event of a socket: afterwards no room holds its link. */
    method OnClose(link: Link, now: int)
      requires Valid()
      modifies this, registry
      ensures Valid()
      ensures link in sockets ==> sockets[link].ready == Closed && sockets[link].peer.None?
      ensures link in sockets ==> forall k :: k in registry.rooms ==> !RoomTheorems.HasLink(registry.rooms[k].peers, link)
      ensures Value() == Signaling.OnClose(old(Value()), link, now)
    {
      ghost var before := Value();
      CloseKeeps(registry.c, before, link, now);
      Closes(link, now);
      if link in sockets {
        forall k | k in registry.rooms ensures !RoomTheorems.HasLink(registry.rooms[k].peers, link) {
          NoGhostAfterClose(registry.c, before, link, now, k);
        }
        ClosedHasNoPeer(registry.c, before, link, now);
      }
    }

    method Closes(link: Link, now: int)
      requires registry.Valid()
      modifies this, registry
      ensures registry.Valid()
      ensures Value() == Signaling.OnClose(old(Value()), link, now)
    {
      if link !in sockets || sockets[link].ready == Closed {
        return;
      }
      var s := sockets[link];
      sockets := sockets[link := s.(ready := Closed)];
      if s.room.Some? && s.peer.Some? {
        var first := |registry.effects|;
        registry.Disconnect(s.room.value, s.peer.value, now);
        DeliverFrom(first);
        sockets := sockets[link := sockets[link].(room := None, peer := None)];
      }
    }

    /** A pending timer of the registry fires: its room is gone, and no socket is left
        registered in it. */
    method OnTimer(t: nat)
      requires Valid() && t in registry.timers
      modifies this, registry
      ensures Valid()
      ensures old(registry.timers)[t].roomId !in registry.rooms
      ensures Value() == OnExpire(old(Value()), old(registry.timers)[t].roomId)
    {
      ExpireKeeps(registry.c, Value(), registry.timers[t].roomId);
      var first := |registry.effects|;
      registry.Fire(t);
      DeliverFrom(first);
    }
  }
}
