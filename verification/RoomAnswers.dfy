/** What each call of a registry answers and leaves, said outright: when it is let
    through, what the room is afterwards, and who hears what. */
module RoomAnswers {
  import opened Wrappers
  import opened Protocol
  import opened Rooms
  import opened RoomTheorems

  /** The value of the range that lies nearest to what was asked for. */
  predicate IsNearest(r: int, asked: int, low: int, high: int) {
    low <= r <= high && forall x :: low <= x <= high ==> Distance(r, asked) <= Distance(x, asked)
  }

  /** The token made for a room, when a secret is configured: everything of it that a
      restart must not lose. */
  predicate IsTokenOf(c: Config, token: Option<RecoveryPayload>, room: Room) {
    if !c.recovery then token.None?
    else
      && token.Some? && token.value.roomId == room.id
      && token.value.createdAt == room.createdAt && token.value.pairedAt == room.pairedAt
      && token.value.inviteWindowMs == room.inviteWindowMs && token.value.graceDurationMs == room.graceDurationMs
  }

  predicate IsRefusal(o: Outcome, reg: Registry, code: ErrorCode) {
    o.result == Refused(code) && o.reg == reg && o.effects == []
  }

  // ---- create ----

  /** A create is let through exactly for a well-formed id not yet taken, finite
      periods and a place below the cap; the room holds its creator, waits from `now`
      on, and has the allowed periods nearest to what was asked for each. */
  lemma CreateAnswers(c: Config, reg: Registry, roomId: RoomId, invite: Millis, grace: Millis,
                      peer: PeerId, link: Link, now: int)
    ensures var o := Create(c, reg, roomId, invite, grace, peer, link, now);
            if !IsPathToken(roomId.text) || invite.NonFinite? || grace.NonFinite? then IsRefusal(o, reg, ConfigInvalid)
            else if roomId in reg then IsRefusal(o, reg, RoomExists)
            else if |reg| >= c.maxRooms then IsRefusal(o, reg, RateLimited)
            else
              && o.result.CreateOk? && o.result.peer == peer && o.effects == []
              && roomId in o.reg && o.reg == reg[roomId := o.reg[roomId]]
              && var room := o.reg[roomId];
                 && room.id == roomId && room.state == Waiting && room.peers == [Peer(peer, link)] && room.creator == Some(peer)
                 && IsNearest(room.inviteWindowMs, invite.ms, 30_000, 3_600_000)
                 && IsNearest(room.graceDurationMs, grace.ms, 15_000, 1_800_000)
                 && room.createdAt == now && room.pairedAt == None
                 && room.deadline == Some(now + room.inviteWindowMs)
                 && IsTokenOf(c, o.result.token, room)
  {
  }

  // ---- join ----

  /** The newcomer is in, after those that were there. */
  predicate Entered(c: Config, o: Outcome, reg: Registry, roomId: RoomId, before: Room, peer: PeerId, link: Link, now: int) {
    && o.result.JoinOk? && o.result.peer == peer
    && |o.result.participants| == |before.peers|
    && (forall i :: 0 <= i < |before.peers| ==> o.result.participants[i] == before.peers[i].id)
    && o.result.graceDurationMs == before.graceDurationMs
    && roomId in o.reg && o.reg == reg[roomId := o.reg[roomId]]
    && o.reg[roomId] == (if |before.peers| == 1
                         then before.(peers := before.peers + [Peer(peer, link)], state := Paired,
                                      pairedAt := Some(now), deadline := None)
                         else before.(peers := before.peers + [Peer(peer, link)]))
    && IsTokenOf(c, o.result.token, o.reg[roomId])
    && o.effects == (if before.peers == [] then [] else [Send(before.peers[0].link, PeerJoined(peer, o.result.token))])
  }

  lemma BroadcastToOne(peers: seq<Peer>, msg: ServerMessage)
    requires |peers| <= 1
    ensures Broadcast(peers, msg) == if peers == [] then [] else [Send(peers[0].link, msg)]
  {
    if |peers| == 1 {
      assert peers[..0] == [];
      assert Broadcast(peers[..0], msg) == [];
    }
  }

  lemma FreePlaceEnters(c: Config, reg: Registry, roomId: RoomId, room: Room, peer: PeerId, link: Link, now: int)
    requires |room.peers| < 2
    ensures Entered(c, Admit(c, reg, roomId, room, peer, link, now), reg, roomId, room, peer, link, now)
  {
    var o := Admit(c, reg, roomId, room, peer, link, now);
    BroadcastToOne(room.peers, PeerJoined(peer, o.result.token));
  }

  /** A registered room lets a newcomer in exactly while it has a free place, in
      whatever state it is: then it hears who is there, they hear of it, and the
      second one pairs the room at `now` and ends its countdown. A full room is as it
      was. */
  lemma JoinAnswers(c: Config, reg: Registry, roomId: RoomId, token: Option<Presented>, peer: PeerId, link: Link, now: int)
    requires RegistryOk(reg) && roomId in reg
    ensures var o := Join(c, reg, roomId, token, peer, link, now);
            && (o.result.JoinOk? <==> |reg[roomId].peers| < 2)
            && (if |reg[roomId].peers| < 2 then Entered(c, o, reg, roomId, reg[roomId], peer, link, now)
                else IsRefusal(o, reg, RoomIsFull))
  {
    assert RoomOk(reg[roomId]);
    if |reg[roomId].peers| < 2 {
      hide IsTokenOf;
      FreePlaceEnters(c, reg, roomId, reg[roomId], peer, link, now);
    } else {
      assert reg[roomId := reg[roomId]] == reg;
    }
  }

  /** The token stands for a room of this id that is still within its age bound. */
  predicate Revives(c: Config, reg: Registry, roomId: RoomId, token: Option<Presented>, now: int) {
    && c.recovery && |reg| < c.maxRooms && token.Some? && token.value.Genuine?
    && var p := token.value.payload;
       && p.roomId == roomId
       && (if p.pairedAt.None? then now - p.createdAt <= p.inviteWindowMs else now - p.pairedAt.value <= c.maxAgeMs)
  }

  /** The empty room it stands for: waiting until the end of the invite window that
      began with it, or, once paired, in grace for its whole grace period. */
  function Revived(p: RecoveryPayload, now: int): Room {
    Room(p.roomId, if p.pairedAt.None? then Waiting else Grace, [], None, p.inviteWindowMs, p.graceDurationMs,
         Some(if p.pairedAt.None? then p.createdAt + p.inviteWindowMs else now + p.graceDurationMs),
         p.createdAt, p.pairedAt)
  }

  /** A room that is not registered lets a newcomer in exactly if the newcomer's token
      revives it, and else is not found. */
  lemma RejoinAnswers(c: Config, reg: Registry, roomId: RoomId, token: Option<Presented>, peer: PeerId, link: Link, now: int)
    requires roomId !in reg
    ensures var o := Join(c, reg, roomId, token, peer, link, now);
            if Revives(c, reg, roomId, token, now)
            then Entered(c, o, reg, roomId, Revived(token.value.payload, now), peer, link, now)
            else IsRefusal(o, reg, RoomNotFound)
  {
    if Revives(c, reg, roomId, token, now) {
      FreePlaceEnters(c, reg, roomId, Revived(token.value.payload, now), peer, link, now);
    }
  }

  /** In one condition: what lets a join through. */
  lemma JoinIsAnswered(c: Config, reg: Registry, roomId: RoomId, token: Option<Presented>, peer: PeerId, link: Link, now: int)
    requires RegistryOk(reg)
    ensures var o := Join(c, reg, roomId, token, peer, link, now);
            && (o.result.JoinOk? <==> if roomId in reg then |reg[roomId].peers| < 2 else Revives(c, reg, roomId, token, now))
            && (o.result.JoinOk? ==> roomId in o.reg && Peer(peer, link) in o.reg[roomId].peers)
  {
    if roomId in reg {
      JoinAnswers(c, reg, roomId, token, peer, link, now);
    } else {
      RejoinAnswers(c, reg, roomId, token, peer, link, now);
    }
  }

  // ---- signals ----

  lemma LinkOfMember(peers: seq<Peer>, p: Peer)
    requires |peers| <= 2 && (|peers| == 2 ==> peers[0].id != peers[1].id) && p in peers
    ensures LinkOf(peers, p.id) == p.link
  {
    if |peers| == 2 {
      assert peers[1..] == [peers[1]];
    }
  }

  /** A member's signal to a member is relayed, exactly as it is and to that one only;
      any other is dropped. */
  lemma RelayAnswers(reg: Registry, roomId: RoomId, from: PeerId, to: PeerId, payload: string)
    requires RegistryOk(reg)
    ensures forall a, b :: roomId in reg && Peer(from, a) in reg[roomId].peers && Peer(to, b) in reg[roomId].peers ==>
              Relay(reg, roomId, from, to, payload) == [Send(b, Signal(from, payload))]
    ensures roomId !in reg || !HasPeer(reg[roomId], from) || !HasPeer(reg[roomId], to) ==>
              Relay(reg, roomId, from, to, payload) == []
  {
    forall a, b | roomId in reg && Peer(from, a) in reg[roomId].peers && Peer(to, b) in reg[roomId].peers
      ensures Relay(reg, roomId, from, to, payload) == [Send(b, Signal(from, payload))]
    {
      assert RoomOk(reg[roomId]);
      assert HasPeer(reg[roomId], from) && HasPeer(reg[roomId], to);
      LinkOfMember(reg[roomId].peers, Peer(to, b));
    }
  }

  // ---- leave, drop, expiry ----

  /** What closing the room means for the peers still in it. */
  ghost predicate Closes(o: Outcome, reg: Registry, roomId: RoomId, left: seq<Peer>, reason: ClosedReason) {
    && o.reg == reg - {roomId}
    && forall link :: && Heard(o.effects, link) == (if HasLink(left, link) then [RoomClosed(reason)] else [])
                      && (Close(link) in o.effects <==> HasLink(left, link))
  }

  lemma ClosingCloses(peers: seq<Peer>, reason: ClosedReason)
    requires LinksDistinct(peers)
    ensures forall link :: && Heard(CloseEffects(peers, reason), link) == (if HasLink(peers, link) then [RoomClosed(reason)] else [])
                           && (Close(link) in CloseEffects(peers, reason) <==> HasLink(peers, link))
  {
    forall link
      ensures Heard(CloseEffects(peers, reason), link) == if HasLink(peers, link) then [RoomClosed(reason)] else []
      ensures Close(link) in CloseEffects(peers, reason) <==> HasLink(peers, link)
    {
      ClosingTellsEveryoneOnce(peers, reason, link);
    }
  }

  /** The peers of a room but this one. */
  function Rest(peers: seq<Peer>, peer: PeerId): seq<Peer> {
    if peers != [] && peers[0].id == peer then peers[1..] else if |peers| == 2 && peers[1].id == peer then [peers[0]] else peers
  }

  lemma RestIsWithout(peers: seq<Peer>, peer: PeerId)
    requires |peers| <= 2 && (|peers| == 2 ==> peers[0].id != peers[1].id)
    requires exists i :: 0 <= i < |peers| && peers[i].id == peer
    ensures WithoutPeer(peers, peer) == Rest(peers, peer) && |Rest(peers, peer)| == |peers| - 1
    ensures LinksDistinct(Rest(peers, peer))
  {
    WithoutPeerOk(peers, peer);
    if |peers| == 2 {
      assert peers[1..] == [peers[1]];
      assert WithoutPeer(peers, peer)[0] in WithoutPeer(peers, peer);
    }
  }

  /** A member that leaves ends the room: the other one hears that its peer ended it
      and is closed, nobody else hears anything. Anyone else's leave does nothing. */
  lemma LeaveAnswers(reg: Registry, roomId: RoomId, peer: PeerId)
    requires RegistryOk(reg)
    ensures var o := Leave(reg, roomId, peer);
            if roomId in reg && HasPeer(reg[roomId], peer)
            then Closes(o, reg, roomId, Rest(reg[roomId].peers, peer), PeerEnded)
            else o.reg == reg && o.effects == []
  {
    if roomId in reg && HasPeer(reg[roomId], peer) {
      var room := reg[roomId];
      assert RoomOk(room);
      RestIsWithout(room.peers, peer);
      ClosingCloses(Rest(room.peers, peer), PeerEnded);
      var reg1 := reg[roomId := room.(peers := WithoutPeer(room.peers, peer))];
      assert reg1 - {roomId} == reg - {roomId};
    }
  }

  /** A member that drops is taken out. A paired room enters grace for its own period
      from `now` on and the survivor, only, is told; any other room stays as it is.
      Anyone else's drop does nothing. */
  lemma DropAnswers(reg: Registry, roomId: RoomId, peer: PeerId, now: int)
    requires RegistryOk(reg)
    ensures var o := Disconnect(reg, roomId, peer, now);
            if roomId in reg && HasPeer(reg[roomId], peer) then
              var room, left := reg[roomId], Rest(reg[roomId].peers, peer);
              if room.state == Paired then
                && |left| == 1 && o.effects == [Send(left[0].link, PeerLeft(peer))]
                && o.reg == reg[roomId := room.(peers := left, state := Grace, deadline := Some(now + room.graceDurationMs))]
              else o.effects == [] && o.reg == reg[roomId := room.(peers := left)]
            else o.reg == reg && o.effects == []
  {
    if roomId in reg && HasPeer(reg[roomId], peer) {
      var room := reg[roomId];
      assert RoomOk(room);
      RestIsWithout(room.peers, peer);
      if room.state == Paired {
        BroadcastToOne(Rest(room.peers, peer), PeerLeft(peer));
      }
    }
  }

  /** A countdown that runs out closes the room: as an expired invite exactly if it
      was never paired. */
  lemma ExpiryAnswers(reg: Registry, roomId: RoomId)
    requires RegistryOk(reg) && roomId in reg && LinksDistinct(reg[roomId].peers)
    ensures Closes(Expire(reg, roomId), reg, roomId, reg[roomId].peers,
                   if reg[roomId].pairedAt.None? then InviteExpired else GraceExpired)
  {
    assert RoomOk(reg[roomId]);
    ClosingCloses(reg[roomId].peers, ExpiryReason(reg[roomId]));
  }
}
