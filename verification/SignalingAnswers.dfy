/** What a server process answers to each message, said outright: what the sender
    hears, what anybody else hears, and what the registry is afterwards. */
module SignalingAnswers {
  import opened Wrappers
  import opened Protocol
  import opened Rooms
  import opened RoomTheorems
  import opened RoomAnswers
  import opened Signaling
  import opened SignalingTheorems

  /** The socket gets this one message, and that is all. */
  predicate OnlyTold(sv: Server, sv1: Server, link: Link, msg: ServerMessage) {
    && link in sv.socks && sv1.reg == sv.reg
    && sv1.socks == sv.socks[link := sv.socks[link].(inbox := sv.socks[link].inbox + [msg])]
  }

  /** The socket is open and its message passes the message limiter. */
  predicate Heeds(sv: Server, link: Link, lim: Limits) {
    link in sv.socks && sv.socks[link].ready == Opened && lim.message
  }

  lemma ReplyTells(sv: Server, link: Link, msg: ServerMessage)
    requires link in sv.socks && sv.socks[link].ready == Opened
    ensures OnlyTold(sv, Reply(sv, link, msg), link, msg)
  {
  }

  /** A socket over its message limit, and one that asks for a second room or over its
      request limit, is told so and nothing else happens; a ping is answered; nothing
      at all comes of a message of a socket that is not open. */
  lemma RefusalAnswers(c: Config, sv: Server, link: Link, msg: ClientMessage, lim: Limits, peer: PeerId, now: int)
    ensures var sv1 := OnMessage(c, sv, link, msg, lim, peer, now);
            && (link !in sv.socks || sv.socks[link].ready != Opened ==> sv1 == sv)
            && (link in sv.socks && sv.socks[link].ready == Opened && !lim.message ==>
                  OnlyTold(sv, sv1, link, ErrorMessage(RateLimited)))
            && (Heeds(sv, link, lim) && msg.Ping? ==> OnlyTold(sv, sv1, link, Pong))
            && (Heeds(sv, link, lim) && (msg.CreateRequest? || msg.JoinRequest?) ==>
                  if sv.socks[link].peer.Some? then OnlyTold(sv, sv1, link, ErrorMessage(ConfigInvalid))
                  else !lim.request ==> OnlyTold(sv, sv1, link, ErrorMessage(RateLimited)))
  {
    if link in sv.socks && sv.socks[link].ready == Opened {
      ReplyTells(sv, link, ErrorMessage(RateLimited));
      ReplyTells(sv, link, ErrorMessage(ConfigInvalid));
      ReplyTells(sv, link, Pong);
    }
  }

  /** It has no room yet, and its request passes the limiters. */
  predicate MayRequest(sv: Server, link: Link, lim: Limits) {
    Heeds(sv, link, lim) && lim.request && sv.socks[link].peer.None?
  }

  /** A create is answered with the new peer id and token, and the socket is in the
      room; or with why not, and nothing else happens. */
  lemma CreateRequestAnswers(c: Config, sv: Server, link: Link, roomId: RoomId, invite: Millis, grace: Millis,
                             lim: Limits, peer: PeerId, now: int)
    requires MayRequest(sv, link, lim)
    ensures var sv1 := OnMessage(c, sv, link, CreateRequest(roomId, invite, grace), lim, peer, now);
            var o := Create(c, sv.reg, roomId, invite, grace, peer, link, now);
            if o.result.Refused? then OnlyTold(sv, sv1, link, ErrorMessage(o.result.code))
            else
              && o.result.CreateOk? && sv1.reg == o.reg
              && sv1.socks == sv.socks[link := Socket(Opened, Some(roomId), Some(peer),
                                                     sv.socks[link].inbox + [Created(peer, o.result.token)])]
  {
    CreateAnswers(c, sv.reg, roomId, invite, grace, peer, link, now);
    assert Deliver(sv.socks, []) == sv.socks;
  }

  /** A join of a registered room with a free place is answered with who is there; the
      socket is in the room, and whoever was there hears of it. */
  lemma JoinRequestEnters(c: Config, sv: Server, link: Link, roomId: RoomId, token: Option<Presented>,
                          lim: Limits, peer: PeerId, now: int)
    requires ServerOk(c, sv) && Fresh(sv, peer) && MayRequest(sv, link, lim)
    requires roomId in sv.reg && |sv.reg[roomId].peers| < 2
    ensures var sv1 := OnMessage(c, sv, link, JoinRequest(roomId, token), lim, peer, now);
            var o := Join(c, sv.reg, roomId, token, peer, link, now);
            && Entered(c, o, sv.reg, roomId, sv.reg[roomId], peer, link, now)
            && sv1.reg == o.reg && sv1.socks.Keys == sv.socks.Keys
            && forall l :: l in sv.socks ==>
                 sv1.socks[l] ==
                   if l == link then
                     Socket(Opened, Some(roomId), Some(peer), sv.socks[l].inbox +
                            [Joined(peer, o.result.participants, o.result.graceDurationMs, o.result.token)])
                   else if HasLink(sv.reg[roomId].peers, l) then Told(sv.socks[l], PeerJoined(peer, o.result.token))
                   else sv.socks[l]
  {
    JoinAnswers(c, sv.reg, roomId, token, peer, link, now);
    JoinSockets(c, sv, link, roomId, token, peer, now);
  }

  /** So is one that revives a room that is not registered. */
  lemma JoinRequestRevives(c: Config, sv: Server, link: Link, roomId: RoomId, token: Option<Presented>,
                           lim: Limits, peer: PeerId, now: int)
    requires MayRequest(sv, link, lim) && roomId !in sv.reg && Revives(c, sv.reg, roomId, token, now)
    ensures var sv1 := OnMessage(c, sv, link, JoinRequest(roomId, token), lim, peer, now);
            var o := Join(c, sv.reg, roomId, token, peer, link, now);
            && Entered(c, o, sv.reg, roomId, Revived(token.value.payload, now), peer, link, now)
            && sv1.reg == o.reg
            && sv1.socks == sv.socks[link := Socket(Opened, Some(roomId), Some(peer), sv.socks[link].inbox +
                                                    [Joined(peer, [], o.result.graceDurationMs, o.result.token)])]
  {
    RejoinAnswers(c, sv.reg, roomId, token, peer, link, now);
    assert Deliver(sv.socks, []) == sv.socks;
    assert Join(c, sv.reg, roomId, token, peer, link, now).result.participants == [];
  }

  /** A join that is not let through is answered with why; a full room also closes the
      socket. */
  lemma JoinRequestRefused(c: Config, sv: Server, link: Link, roomId: RoomId, token: Option<Presented>,
                           lim: Limits, peer: PeerId, now: int)
    requires RegistryOk(sv.reg) && MayRequest(sv, link, lim)
    requires if roomId in sv.reg then |sv.reg[roomId].peers| >= 2 else !Revives(c, sv.reg, roomId, token, now)
    ensures var sv1 := OnMessage(c, sv, link, JoinRequest(roomId, token), lim, peer, now);
            var s := sv.socks[link];
            if roomId !in sv.reg then OnlyTold(sv, sv1, link, ErrorMessage(RoomNotFound))
            else
              && sv1.reg == sv.reg
              && sv1.socks == sv.socks[link := s.(inbox := s.inbox + [ErrorMessage(RoomIsFull)], ready := Closing)]
  {
    if roomId in sv.reg {
      JoinAnswers(c, sv.reg, roomId, token, peer, link, now);
    } else {
      RejoinAnswers(c, sv.reg, roomId, token, peer, link, now);
    }
    assert Deliver(sv.socks, []) == sv.socks;
  }

  /** A relayed message reaches its one addressee, if that socket is open. */
  lemma RelayIsDelivered(sv: Server, roomId: RoomId, from: PeerId, to: Peer, payload: string)
    requires RegistryOk(sv.reg) && roomId in sv.reg && HasPeer(sv.reg[roomId], from) && to in sv.reg[roomId].peers
    requires to.link in sv.socks
    ensures var sv1 := Settle(sv, Outcome(sv.reg, Done, Relay(sv.reg, roomId, from, to.id, payload)));
            if sv.socks[to.link].ready == Opened then OnlyTold(sv, sv1, to.link, Signal(from, payload)) else sv1 == sv
  {
    var i :| 0 <= i < |sv.reg[roomId].peers| && sv.reg[roomId].peers[i].id == from;
    assert Peer(from, sv.reg[roomId].peers[i].link) in sv.reg[roomId].peers;
    assert Peer(to.id, to.link) == to;
    RelayAnswers(sv.reg, roomId, from, to.id, payload);
    var e := Send(to.link, Signal(from, payload));
    assert Relay(sv.reg, roomId, from, to.id, payload) == [e];
    DeliverAppend(sv.socks, [], e);
    assert [] + [e] == [e] && Deliver(sv.socks, []) == sv.socks;
  }

  /** A member's signal to its roommate arrives there, as it is, and nobody else hears
      anything. */
  lemma SignalArrives(c: Config, sv: Server, link: Link, roomId: RoomId, from: PeerId, to: Peer, payload: string,
                      lim: Limits, peer: PeerId, now: int)
    requires ServerOk(c, sv) && Heeds(sv, link, lim)
    requires roomId in sv.reg && Peer(from, link) in sv.reg[roomId].peers && to in sv.reg[roomId].peers
    ensures var sv1 := OnMessage(c, sv, link, SignalRequest(roomId, to.id, payload), lim, peer, now);
            && to.link in sv.socks
            && if sv.socks[to.link].ready == Opened then OnlyTold(sv, sv1, to.link, Signal(from, payload)) else sv1 == sv
  {
    var i :| 0 <= i < |sv.reg[roomId].peers| && sv.reg[roomId].peers[i] == Peer(from, link);
    assert PeerOk(c, sv.reg[roomId], sv.reg[roomId].peers[i], sv.socks);
    var j :| 0 <= j < |sv.reg[roomId].peers| && sv.reg[roomId].peers[j] == to;
    assert PeerOk(c, sv.reg[roomId], sv.reg[roomId].peers[j], sv.socks);
    assert HasPeer(sv.reg[roomId], from);
    RelayIsDelivered(sv, roomId, from, to, payload);
  }

  /** Socket `l` after a leave by `link`. */
  function AfterLeave(socks: map<Link, Socket>, link: Link, peers: seq<Peer>, l: Link): Socket
    requires l in socks
  {
    if l == link then socks[l].(room := None, peer := None)
    else if HasLink(peers, l) then ToldClosed(socks[l], PeerEnded)
    else socks[l]
  }

  /** A leave takes the socket out of its room and closes the room for the other one,
      who hears so; nobody else hears anything. */
  lemma LeaveRequestAnswers(c: Config, sv: Server, link: Link, roomId: RoomId, me: PeerId,
                            lim: Limits, peer: PeerId, now: int)
    requires ServerOk(c, sv) && Heeds(sv, link, lim)
    requires roomId in sv.reg && Peer(me, link) in sv.reg[roomId].peers
    ensures var sv1 := OnMessage(c, sv, link, LeaveRequest, lim, peer, now);
            && sv1.reg == sv.reg - {roomId} && sv1.socks.Keys == sv.socks.Keys
            && forall l :: l in sv.socks ==> sv1.socks[l] == AfterLeave(sv.socks, link, sv.reg[roomId].peers, l)
  {
    var peers := sv.reg[roomId].peers;
    var i :| 0 <= i < |peers| && peers[i] == Peer(me, link);
    assert PeerOk(c, sv.reg[roomId], peers[i], sv.socks);
    assert HasPeer(sv.reg[roomId], me);
    LeaversRoom(c, sv, link, roomId, me);
    LeaveClosesRoom(sv.reg, roomId, me);
    forall l | l in sv.socks
      ensures OnMessage(c, sv, link, LeaveRequest, lim, peer, now).socks[l] == AfterLeave(sv.socks, link, peers, l)
    {
      LeftSocket(sv, link, peers, WithoutPeer(peers, me), l);
    }
  }

  lemma LeaveClosesRoom(reg: Registry, roomId: RoomId, me: PeerId)
    requires roomId in reg && HasPeer(reg[roomId], me)
    ensures Leave(reg, roomId, me) ==
            Outcome(reg - {roomId}, Done, CloseEffects(WithoutPeer(reg[roomId].peers, me), PeerEnded))
  {
    assert reg[roomId := reg[roomId].(peers := WithoutPeer(reg[roomId].peers, me))] - {roomId} == reg - {roomId};
  }

  lemma LeftSocket(sv: Server, link: Link, peers: seq<Peer>, left: seq<Peer>, l: Link)
    requires l in sv.socks && link in sv.socks && LinksDistinct(left)
    requires forall m :: HasLink(left, m) <==> m != link && HasLink(peers, m)
    ensures Deliver(Forget(sv, link).socks, CloseEffects(left, PeerEnded))[l] == AfterLeave(sv.socks, link, peers, l)
  {
    DeliverClose(Forget(sv, link).socks, left, PeerEnded, l);
  }

  lemma LeaversRoom(c: Config, sv: Server, link: Link, roomId: RoomId, me: PeerId)
    requires ServerOk(c, sv) && roomId in sv.reg && Peer(me, link) in sv.reg[roomId].peers && HasPeer(sv.reg[roomId], me)
    ensures var left := WithoutPeer(sv.reg[roomId].peers, me);
            && LinksDistinct(left)
            && forall l :: HasLink(left, l) <==> l != link && HasLink(sv.reg[roomId].peers, l)
  {
    var peers, left := sv.reg[roomId].peers, WithoutPeer(sv.reg[roomId].peers, me);
    WithoutPeerDistinct(c, sv, roomId, me);
    DistinctLinks(c, sv, roomId);
    assert RoomOk(sv.reg[roomId]);
    forall l ensures HasLink(left, l) <==> l != link && HasLink(peers, l) {
      if HasLink(left, l) {
        var i :| 0 <= i < |left| && left[i].link == l;
        assert left[i] in left;
        var j :| 0 <= j < |peers| && peers[j] == left[i];
      }
      if l != link && HasLink(peers, l) {
        var j :| 0 <= j < |peers| && peers[j].link == l;
        assert peers[j] in peers && peers[j].id != me;
        var i :| 0 <= i < |left| && left[i] == peers[j];
      }
    }
  }

  /** A signal for a room the socket is not in, or from one that is in none, is dropped. */
  lemma StraySignalDropped(c: Config, sv: Server, link: Link, roomId: RoomId, to: PeerId, payload: string,
                           lim: Limits, peer: PeerId, now: int)
    requires Heeds(sv, link, lim) && (sv.socks[link].room != Some(roomId) || sv.socks[link].peer.None?)
    ensures OnMessage(c, sv, link, SignalRequest(roomId, to, payload), lim, peer, now) == sv
  {
  }

  /** A room whose countdown has run out is gone, and whoever is in it hears why and is
      closed; nobody else hears anything. */
  lemma ExpiryIsTold(c: Config, sv: Server, roomId: RoomId)
    requires ServerOk(c, sv) && roomId in sv.reg
    ensures var sv1, room := OnExpire(sv, roomId), sv.reg[roomId];
            && sv1.reg == sv.reg - {roomId} && sv1.socks.Keys == sv.socks.Keys
            && forall l :: l in sv.socks ==>
                 sv1.socks[l] == if HasLink(room.peers, l)
                                 then ToldClosed(sv.socks[l], if room.pairedAt.None? then InviteExpired else GraceExpired)
                                 else sv.socks[l]
  {
    var room := sv.reg[roomId];
    DistinctLinks(c, sv, roomId);
    assert RoomOk(room);
    forall l | l in sv.socks
      ensures Deliver(sv.socks, CloseEffects(room.peers, ExpiryReason(room)))[l] ==
              if HasLink(room.peers, l) then ToldClosed(sv.socks[l], ExpiryReason(room)) else sv.socks[l]
    {
      DeliverClose(sv.socks, room.peers, ExpiryReason(room), l);
    }
  }

  lemma MembersSocket(c: Config, sv: Server, link: Link, roomId: RoomId, me: PeerId)
    requires ServerOk(c, sv) && roomId in sv.reg && Peer(me, link) in sv.reg[roomId].peers
    ensures link in sv.socks && sv.socks[link].ready != Closed
    ensures sv.socks[link].room == Some(roomId) && sv.socks[link].peer == Some(me)
    ensures HasPeer(sv.reg[roomId], me) && RoomOk(sv.reg[roomId])
  {
    var room := sv.reg[roomId];
    var i :| 0 <= i < |room.peers| && room.peers[i] == Peer(me, link);
    assert PeerOk(c, room, room.peers[i], sv.socks);
  }

  /** The socket `l` after that of `link`, the peer `me`, closed. */
  function AfterDrop(socks: map<Link, Socket>, link: Link, room: Room, me: PeerId, l: Link): Socket
    requires l in socks
  {
    if l == link then socks[l].(ready := Closed, room := None, peer := None)
    else if room.state == Paired && HasLink(room.peers, l) then Told(socks[l], PeerLeft(me))
    else socks[l]
  }

  /** The room without the peer: in grace from now on, if it was paired. */
  function RoomAfterDrop(room: Room, me: PeerId, now: int): Room {
    if room.state == Paired
    then room.(peers := Rest(room.peers, me), state := Grace, deadline := Some(now + room.graceDurationMs))
    else room.(peers := Rest(room.peers, me))
  }

  /** The socket of a member closes: it is in no room any more, and the other one, if the
      room was paired, hears that its peer left, while the room enters grace; nobody
      else hears anything, and any other room only loses the member. */
  lemma DropIsTold(c: Config, sv: Server, link: Link, roomId: RoomId, me: PeerId, now: int)
    requires ServerOk(c, sv) && roomId in sv.reg && Peer(me, link) in sv.reg[roomId].peers
    ensures var sv1, room := OnClose(sv, link, now), sv.reg[roomId];
            && sv1.reg == sv.reg[roomId := RoomAfterDrop(room, me, now)]
            && sv1.socks.Keys == sv.socks.Keys
            && forall l :: l in sv.socks ==> sv1.socks[l] == AfterDrop(sv.socks, link, room, me, l)
  {
    hide Disconnect, Deliver, ServerOk, RoomOk, Rest;
    MembersSocket(c, sv, link, roomId, me);
    DropEffects(c, sv, link, roomId, me, now);
    var o := Disconnect(sv.reg, roomId, me, now);
    var sv1 := sv.(socks := sv.socks[link := sv.socks[link].(ready := Closed)]);
    assert OnClose(sv, link, now) == Forget(Settle(sv1, o), link);
    DropDelivered(sv.socks, link, sv.reg[roomId], me, o.effects);
  }

  lemma DropEffects(c: Config, sv: Server, link: Link, roomId: RoomId, me: PeerId, now: int)
    requires ServerOk(c, sv) && roomId in sv.reg && Peer(me, link) in sv.reg[roomId].peers
    ensures var o, room := Disconnect(sv.reg, roomId, me, now), sv.reg[roomId];
            && o.reg == sv.reg[roomId := RoomAfterDrop(room, me, now)]
            && if room.state == Paired then DropTells(room, me, link, o.effects) else o.effects == []
  {
    hide Disconnect;
    MembersSocket(c, sv, link, roomId, me);
    DropAnswers(sv.reg, roomId, me, now);
    DistinctLinks(c, sv, roomId);
    if sv.reg[roomId].state == Paired {
      OtherOne(sv.reg[roomId].peers, me, link);
    }
  }

  /** The one message goes to whoever is left. */
  ghost predicate DropTells(room: Room, me: PeerId, link: Link, effects: seq<Effect>) {
    && |effects| == 1 && effects[0].Send? && effects[0].msg == PeerLeft(me)
    && forall l :: HasLink(room.peers, l) && l != link <==> l == effects[0].to
  }

  lemma DropDelivered(socks: map<Link, Socket>, link: Link, room: Room, me: PeerId, effects: seq<Effect>)
    requires link in socks && if room.state == Paired then DropTells(room, me, link, effects) else effects == []
    ensures var socks1 := Deliver(socks[link := socks[link].(ready := Closed)], effects);
            && socks1.Keys == socks.Keys
            && forall l :: l in socks ==>
                 AfterDrop(socks, link, room, me, l) == if l == link then socks1[l].(room := None, peer := None) else socks1[l]
  {
    hide HasLink;
    DeliveredOnce(socks[link := socks[link].(ready := Closed)], effects);
  }

  lemma DeliveredOnce(socks: map<Link, Socket>, effects: seq<Effect>)
    requires |effects| <= 1
    ensures Deliver(socks, effects) == if effects == [] then socks else Perform(socks, effects[0])
  {
    if effects != [] {
      assert effects[..0] == [] && Deliver(socks, []) == socks;
    }
  }

  /** In a pair, whoever is left is the other one. */
  lemma OtherOne(peers: seq<Peer>, me: PeerId, link: Link)
    requires |peers| == 2 && peers[0].id != peers[1].id && LinksDistinct(peers) && Peer(me, link) in peers
    ensures |Rest(peers, me)| == 1
    ensures forall l :: HasLink(peers, l) && l != link <==> l == Rest(peers, me)[0].link
  {
    assert HasLink(peers, peers[0].link) && HasLink(peers, peers[1].link);
  }
}
