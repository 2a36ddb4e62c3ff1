/** No ghost peers, and every connected peer knows the truth: what every event
    of a server process keeps. */
module SignalingTheorems {
  import opened Wrappers
  import opened Protocol
  import opened Rooms
  import RoomTheorems
  import opened Signaling

  // ---- what a client concludes from the messages it accepted ----

  /** The peers a client believes are with it in the room. */
  function View(inbox: seq<ServerMessage>): set<PeerId> {
    if inbox == [] then {}
    else
      var before := View(inbox[..|inbox| - 1]);
      match inbox[|inbox| - 1]
      case Created(_, _) => {}
      case Joined(_, participants, _, _) => set p | p in participants
      case PeerJoined(p, _) => before + {p}
      case PeerLeft(p) => before - {p}
      case _ => before
  }

  /** The token a client would present. */
  function LatestToken(inbox: seq<ServerMessage>): Option<RecoveryPayload> {
    if inbox == [] then None
    else
      var before := LatestToken(inbox[..|inbox| - 1]);
      var last := inbox[|inbox| - 1];
      if (last.Created? || last.Joined? || last.PeerJoined?) && last.token.Some? then last.token else before
  }

  function Others(room: Room, me: PeerId): set<PeerId> {
    set i | 0 <= i < |room.peers| && room.peers[i].id != me :: room.peers[i].id
  }

  // ---- the invariant ----

  /** A registered peer is a live socket that names it back; while that socket
      is open its client knows exactly who else is there and holds a token for
      the room as it is now. */
  ghost predicate PeerOk(c: Config, room: Room, p: Peer, socks: map<Link, Socket>) {
    && p.link in socks
    && var s := socks[p.link];
    && s.ready != Closed
    && s.room == Some(room.id) && s.peer == Some(p.id)
    && (s.ready == Opened ==>
          && View(s.inbox) == Others(room, p.id)
          && (c.recovery ==> LatestToken(s.inbox) == Some(Metadata(room))))
  }

  /** A room-closed is the last thing a socket ever accepts. */
  ghost predicate SocketOk(s: Socket) {
    && (s.room.Some? <==> s.peer.Some?)
    && (forall i :: 0 <= i < |s.inbox| && s.inbox[i].RoomClosed? ==> i == |s.inbox| - 1 && s.ready != Opened)
    && (s.ready == Closed ==> s.peer.None?)
  }

  ghost predicate SocketsOk(socks: map<Link, Socket>) {
    && (forall l :: l in socks ==> SocketOk(socks[l]))
    && (forall l, m :: l in socks && m in socks && l != m && socks[l].peer.Some? ==> socks[l].peer != socks[m].peer)
  }

  ghost predicate PeersOk(c: Config, reg: Registry, socks: map<Link, Socket>) {
    forall k, i :: k in reg && 0 <= i < |reg[k].peers| ==> PeerOk(c, reg[k], reg[k].peers[i], socks)
  }

  ghost predicate ServerOk(c: Config, sv: Server) {
    && RegistryOk(sv.reg)
    && SocketsOk(sv.socks)
    && PeersOk(c, sv.reg, sv.socks)
  }

  ghost predicate Fresh(sv: Server, peer: PeerId) {
    forall l :: l in sv.socks ==> sv.socks[l].peer != Some(peer)
  }

  // ---- consequences ----

  /** A peer is registered by one socket in one room: no socket is in two. */
  lemma OneRoomPerSocket(c: Config, sv: Server, k: RoomId, i: nat, m: RoomId, j: nat)
    requires ServerOk(c, sv) && k in sv.reg && m in sv.reg
    requires i < |sv.reg[k].peers| && j < |sv.reg[m].peers|
    requires sv.reg[k].peers[i].link == sv.reg[m].peers[j].link || sv.reg[k].peers[i].id == sv.reg[m].peers[j].id
    ensures k == m && i == j
  {
    assert PeerOk(c, sv.reg[k], sv.reg[k].peers[i], sv.socks);
    assert PeerOk(c, sv.reg[m], sv.reg[m].peers[j], sv.socks);
    assert RoomOk(sv.reg[k]);
  }

  lemma DistinctLinks(c: Config, sv: Server, k: RoomId)
    requires ServerOk(c, sv) && k in sv.reg
    ensures RoomTheorems.LinksDistinct(sv.reg[k].peers)
  {
    forall i, j | 0 <= i < j < |sv.reg[k].peers|
      ensures sv.reg[k].peers[i].link != sv.reg[k].peers[j].link
    {
      if sv.reg[k].peers[i].link == sv.reg[k].peers[j].link {
        OneRoomPerSocket(c, sv, k, i, k, j);
      }
    }
  }

  lemma ClosedHasNoPeer(c: Config, sv: Server, link: Link, now: int)
    requires ServerOk(c, sv) && ServerOk(c, OnClose(sv, link, now)) && link in sv.socks
    ensures link in OnClose(sv, link, now).socks
    ensures var s := OnClose(sv, link, now).socks[link]; s.ready == Closed && s.peer.None?
  {
    var s := sv.socks[link];
    if s.ready != Closed && s.room.Some? && s.peer.Some? {
      ClosedStays(sv.socks[link := s.(ready := Closed)],
                  Disconnect(sv.reg, s.room.value, s.peer.value, now).effects, link);
    }
    assert SocketOk(OnClose(sv, link, now).socks[link]);
  }

  /** After onclose no room holds the socket's link, whatever became of its
      room in the meantime. */
  lemma NoGhostAfterClose(c: Config, sv: Server, link: Link, now: int, k: RoomId)
    requires ServerOk(c, OnClose(sv, link, now)) && link in sv.socks
    requires k in OnClose(sv, link, now).reg
    ensures !RoomTheorems.HasLink(OnClose(sv, link, now).reg[k].peers, link)
  {
    var sv1 := OnClose(sv, link, now);
    var s := sv.socks[link];
    if s.ready != Closed && s.room.Some? && s.peer.Some? {
      ClosedStays(sv.socks[link := s.(ready := Closed)],
                  Disconnect(sv.reg, s.room.value, s.peer.value, now).effects, link);
    }
    forall i | 0 <= i < |sv1.reg[k].peers|
      ensures sv1.reg[k].peers[i].link != link
    {
      assert PeerOk(c, sv1.reg[k], sv1.reg[k].peers[i], sv1.socks);
    }
  }

  // ---- delivery ----

  function Told(s: Socket, msg: ServerMessage): Socket {
    if s.ready == Opened then s.(inbox := s.inbox + [msg]) else s
  }

  function ToldClosed(s: Socket, reason: ClosedReason): Socket {
    if s.ready == Opened then s.(inbox := s.inbox + [RoomClosed(reason)], ready := Closing) else s
  }

  lemma {:induction false} DeliverBroadcast(socks: map<Link, Socket>, peers: seq<Peer>, msg: ServerMessage, l: Link)
    requires RoomTheorems.LinksDistinct(peers) && l in socks
    ensures Deliver(socks, Broadcast(peers, msg))[l] ==
            if RoomTheorems.HasLink(peers, l) then Told(socks[l], msg) else socks[l]
  {
    if peers != [] {
      var front := peers[..|peers| - 1];
      var last := Send(peers[|peers| - 1].link, msg);
      DeliverBroadcast(socks, front, msg, l);
      RoomTheorems.HasLinkSplit(peers, l);
      DeliverAppend(socks, Broadcast(front, msg), last);
      assert RoomTheorems.HasLink(front, l) ==> last.to != l;
    }
  }

  lemma DeliverAppend(socks: map<Link, Socket>, effects: seq<Effect>, e: Effect)
    ensures Deliver(socks, effects + [e]) == Perform(Deliver(socks, effects), e)
  {
    assert (effects + [e])[..|effects|] == effects;
  }

  lemma {:induction false} DeliverClose(socks: map<Link, Socket>, peers: seq<Peer>, reason: ClosedReason, l: Link)
    requires RoomTheorems.LinksDistinct(peers) && l in socks
    ensures Deliver(socks, CloseEffects(peers, reason))[l] ==
            if RoomTheorems.HasLink(peers, l) then ToldClosed(socks[l], reason) else socks[l]
  {
    if peers != [] {
      var front := peers[..|peers| - 1];
      var last := peers[|peers| - 1].link;
      var es := CloseEffects(front, reason);
      DeliverClose(socks, front, reason, l);
      RoomTheorems.HasLinkSplit(peers, l);
      DeliverAppend(socks, es, Send(last, RoomClosed(reason)));
      DeliverAppend(socks, es + [Send(last, RoomClosed(reason))], Close(last));
      assert CloseEffects(peers, reason) == (es + [Send(last, RoomClosed(reason))]) + [Close(last)];
      assert RoomTheorems.HasLink(front, l) ==> last != l;
    }
  }

  lemma InboxAppend(inbox: seq<ServerMessage>, msg: ServerMessage)
    ensures (inbox + [msg])[..|inbox + [msg]| - 1] == inbox
  {
  }

  lemma {:induction false} ClosedStays(socks: map<Link, Socket>, effects: seq<Effect>, link: Link)
    requires link in socks && socks[link].ready == Closed
    ensures Deliver(socks, effects)[link] == socks[link]
  {
    if effects != [] {
      ClosedStays(socks, effects[..|effects| - 1], link);
    }
  }

  // ---- every event keeps the invariant ----

  predicate Neutral(msg: ServerMessage) {
    msg.ErrorMessage? || msg.Pong? || msg.Signal?
  }

  lemma SendNeutralKeeps(c: Config, sv: Server, to: Link, msg: ServerMessage)
    requires ServerOk(c, sv) && Neutral(msg)
    ensures ServerOk(c, sv.(socks := Perform(sv.socks, Send(to, msg))))
  {
    var socks1 := Perform(sv.socks, Send(to, msg));
    if to in sv.socks && sv.socks[to].ready == Opened {
      InboxAppend(sv.socks[to].inbox, msg);
      forall k, i | k in sv.reg && 0 <= i < |sv.reg[k].peers|
        ensures PeerOk(c, sv.reg[k], sv.reg[k].peers[i], socks1)
      {
        assert PeerOk(c, sv.reg[k], sv.reg[k].peers[i], sv.socks);
      }
    }
  }

  lemma StartClosingKeeps(c: Config, sv: Server, link: Link)
    requires ServerOk(c, sv)
    ensures ServerOk(c, StartClosing(sv, link))
  {
    var socks1 := StartClosing(sv, link).socks;
    forall k, i | k in sv.reg && 0 <= i < |sv.reg[k].peers|
      ensures PeerOk(c, sv.reg[k], sv.reg[k].peers[i], socks1)
    {
      assert PeerOk(c, sv.reg[k], sv.reg[k].peers[i], sv.socks);
    }
  }

  lemma ConnectKeeps(c: Config, sv: Server, link: Link)
    requires ServerOk(c, sv)
    ensures ServerOk(c, Connect(sv, link))
  {
    var socks1 := Connect(sv, link).socks;
    forall k, i | k in sv.reg && 0 <= i < |sv.reg[k].peers|
      ensures PeerOk(c, sv.reg[k], sv.reg[k].peers[i], socks1)
    {
      assert PeerOk(c, sv.reg[k], sv.reg[k].peers[i], sv.socks);
    }
  }

  lemma CreateKeeps(c: Config, sv: Server, link: Link, roomId: RoomId, invite: Millis, grace: Millis,
                    peer: PeerId, now: int)
    requires ServerOk(c, sv) && Fresh(sv, peer)
    requires link in sv.socks && sv.socks[link].ready == Opened && sv.socks[link].peer.None?
    ensures ServerOk(c, OnCreate(c, sv, link, roomId, invite, grace, peer, now))
  {
    var o := Create(c, sv.reg, roomId, invite, grace, peer, link, now);
    assert Deliver(sv.socks, []) == sv.socks;
    if o.result.Refused? {
      SendNeutralKeeps(c, sv, link, ErrorMessage(o.result.code));
    } else {
      CreatedKeeps(c, sv, link, roomId, invite, grace, peer, now);
    }
  }

  lemma CreatedKeeps(c: Config, sv: Server, link: Link, roomId: RoomId, invite: Millis, grace: Millis,
                     peer: PeerId, now: int)
    requires ServerOk(c, sv) && Fresh(sv, peer)
    requires link in sv.socks && sv.socks[link].ready == Opened && sv.socks[link].peer.None?
    requires Create(c, sv.reg, roomId, invite, grace, peer, link, now).result.CreateOk?
    ensures ServerOk(c, OnCreate(c, sv, link, roomId, invite, grace, peer, now))
  {
    var o := Create(c, sv.reg, roomId, invite, grace, peer, link, now);
    assert Deliver(sv.socks, []) == sv.socks;
    CreateKeepsOk(c, sv.reg, roomId, invite, grace, peer, link, now);
    var sv1 := OnCreate(c, sv, link, roomId, invite, grace, peer, now);
    var msg := Created(peer, o.result.token);
    InboxAppend(sv.socks[link].inbox, msg);
    assert sv1.socks == sv.socks[link := Socket(Opened, Some(roomId), Some(peer), sv.socks[link].inbox + [msg])];
    forall k, i | k in sv1.reg && 0 <= i < |sv1.reg[k].peers|
      ensures PeerOk(c, sv1.reg[k], sv1.reg[k].peers[i], sv1.socks)
    {
      if k != roomId {
        assert PeerOk(c, sv.reg[k], sv.reg[k].peers[i], sv.socks);
      }
    }
  }

  lemma CloseSockets(socks: map<Link, Socket>, peers: seq<Peer>, reason: ClosedReason)
    requires SocketsOk(socks) && RoomTheorems.LinksDistinct(peers)
    ensures var socks1 := Deliver(socks, CloseEffects(peers, reason));
            && SocketsOk(socks1)
            && (forall l :: l in socks ==>
                  socks1[l] == if RoomTheorems.HasLink(peers, l) then ToldClosed(socks[l], reason) else socks[l])
  {
    var socks1 := Deliver(socks, CloseEffects(peers, reason));
    forall l | l in socks
      ensures socks1[l] == if RoomTheorems.HasLink(peers, l) then ToldClosed(socks[l], reason) else socks[l]
      ensures SocketOk(socks1[l]) && socks1[l].peer == socks[l].peer
    {
      DeliverClose(socks, peers, reason, l);
      assert SocketOk(socks[l]);
    }
  }

  /** A message to some peers of one room does not reach another room's. */
  lemma OtherRoomUntouched(c: Config, sv: Server, k: RoomId, i: nat, roomId: RoomId, peers: seq<Peer>)
    requires ServerOk(c, sv) && k in sv.reg && i < |sv.reg[k].peers| && k != roomId && roomId in sv.reg
    requires forall p :: p in peers ==> p in sv.reg[roomId].peers
    ensures !RoomTheorems.HasLink(peers, sv.reg[k].peers[i].link)
  {
    assert PeerOk(c, sv.reg[k], sv.reg[k].peers[i], sv.socks);
    forall p | p in peers
      ensures p.link != sv.reg[k].peers[i].link
    {
      var n :| 0 <= n < |sv.reg[roomId].peers| && sv.reg[roomId].peers[n] == p;
      assert PeerOk(c, sv.reg[roomId], sv.reg[roomId].peers[n], sv.socks);
    }
  }

  lemma RemoveRoomKeeps(c: Config, sv: Server, roomId: RoomId)
    requires ServerOk(c, sv)
    ensures ServerOk(c, sv.(reg := sv.reg - {roomId}))
  {
    forall k, i | k in sv.reg - {roomId} && 0 <= i < |sv.reg[k].peers|
      ensures PeerOk(c, sv.reg[k], sv.reg[k].peers[i], sv.socks)
    {
    }
  }

  predicate Unregistered(reg: Registry, link: Link) {
    forall k :: k in reg ==> !RoomTheorems.HasLink(reg[k].peers, link)
  }

  lemma CloseLinksKeeps(c: Config, sv: Server, peers: seq<Peer>, reason: ClosedReason)
    requires ServerOk(c, sv) && RoomTheorems.LinksDistinct(peers)
    requires forall i :: 0 <= i < |peers| ==> Unregistered(sv.reg, peers[i].link)
    ensures ServerOk(c, sv.(socks := Deliver(sv.socks, CloseEffects(peers, reason))))
  {
    CloseSockets(sv.socks, peers, reason);
    var socks1 := Deliver(sv.socks, CloseEffects(peers, reason));
    forall k, i | k in sv.reg && 0 <= i < |sv.reg[k].peers|
      ensures PeerOk(c, sv.reg[k], sv.reg[k].peers[i], socks1)
    {
      assert PeerOk(c, sv.reg[k], sv.reg[k].peers[i], sv.socks);
      var l := sv.reg[k].peers[i].link;
      assert RoomTheorems.HasLink(sv.reg[k].peers, l);
      assert !RoomTheorems.HasLink(peers, l);
    }
  }

  /** The socket forgets its room and peer id, and may be closed for good. */
  lemma ForgetKeeps(c: Config, sv: Server, link: Link, ready: Ready)
    requires ServerOk(c, sv) && link in sv.socks && Unregistered(sv.reg, link)
    requires ready == sv.socks[link].ready || ready == Closed
    ensures ServerOk(c, sv.(socks := sv.socks[link := sv.socks[link].(ready := ready, room := None, peer := None)]))
  {
    var socks1 := sv.socks[link := sv.socks[link].(ready := ready, room := None, peer := None)];
    assert SocketOk(sv.socks[link]);
    forall k, i | k in sv.reg && 0 <= i < |sv.reg[k].peers|
      ensures PeerOk(c, sv.reg[k], sv.reg[k].peers[i], socks1)
    {
      assert PeerOk(c, sv.reg[k], sv.reg[k].peers[i], sv.socks);
      assert RoomTheorems.HasLink(sv.reg[k].peers, sv.reg[k].peers[i].link);
    }
  }

  lemma PeersGoneWithRoom(c: Config, sv: Server, roomId: RoomId, peers: seq<Peer>, i: nat)
    requires ServerOk(c, sv) && roomId in sv.reg && i < |peers|
    requires forall p :: p in peers ==> p in sv.reg[roomId].peers
    ensures Unregistered(sv.reg - {roomId}, peers[i].link)
  {
    var reg1 := sv.reg - {roomId};
    forall k | k in reg1
      ensures !RoomTheorems.HasLink(reg1[k].peers, peers[i].link)
    {
      if RoomTheorems.HasLink(reg1[k].peers, peers[i].link) {
        var j :| 0 <= j < |reg1[k].peers| && reg1[k].peers[j].link == peers[i].link;
        OtherRoomUntouched(c, sv, k, j, roomId, peers);
        assert RoomTheorems.HasLink(peers, sv.reg[k].peers[j].link);
      }
    }
  }

  lemma ExpireKeeps(c: Config, sv: Server, roomId: RoomId)
    requires ServerOk(c, sv)
    ensures ServerOk(c, OnExpire(sv, roomId))
  {
    if roomId in sv.reg {
      DistinctLinks(c, sv, roomId);
      var peers := sv.reg[roomId].peers;
      forall i | 0 <= i < |peers|
        ensures Unregistered(sv.reg - {roomId}, peers[i].link)
      {
        PeersGoneWithRoom(c, sv, roomId, peers, i);
      }
      RemoveRoomKeeps(c, sv, roomId);
      CloseLinksKeeps(c, sv.(reg := sv.reg - {roomId}), peers, ExpiryReason(sv.reg[roomId]));
    }
  }

  lemma WithoutPeerDistinct(c: Config, sv: Server, k: RoomId, peer: PeerId)
    requires ServerOk(c, sv) && k in sv.reg && HasPeer(sv.reg[k], peer)
    ensures var rest := WithoutPeer(sv.reg[k].peers, peer);
            && |rest| == |sv.reg[k].peers| - 1
            && RoomTheorems.LinksDistinct(rest)
            && (forall p :: p in rest <==> p in sv.reg[k].peers && p.id != peer)
  {
    assert RoomOk(sv.reg[k]);
    WithoutPeerOk(sv.reg[k].peers, peer);
  }

  /** A socket that names a room is registered there under the peer id it
      names, or nowhere. */
  lemma NamedOrNowhere(c: Config, sv: Server, link: Link)
    requires ServerOk(c, sv) && link in sv.socks
    ensures sv.socks[link].peer.None? ==> Unregistered(sv.reg, link)
    ensures sv.socks[link].peer.Some? ==>
              && sv.socks[link].room.Some?
              && Unregistered(sv.reg - {sv.socks[link].room.value}, link)
    ensures sv.socks[link].peer.Some? && sv.socks[link].room.Some? ==>
              var k := sv.socks[link].room.value;
              if k in sv.reg && HasPeer(sv.reg[k], sv.socks[link].peer.value)
              then Peer(sv.socks[link].peer.value, link) in sv.reg[k].peers
              else Unregistered(sv.reg, link)
  {
    var s := sv.socks[link];
    assert SocketOk(s);
    forall k, i | k in sv.reg && 0 <= i < |sv.reg[k].peers|
      ensures sv.reg[k].peers[i].link == link ==> s.room == Some(k) && s.peer == Some(sv.reg[k].peers[i].id)
      ensures s.peer == Some(sv.reg[k].peers[i].id) ==> sv.reg[k].peers[i].link == link
    {
      assert PeerOk(c, sv.reg[k], sv.reg[k].peers[i], sv.socks);
    }
    if s.peer.Some? && s.room.value in sv.reg && HasPeer(sv.reg[s.room.value], s.peer.value) {
      var room := sv.reg[s.room.value];
      var i :| 0 <= i < |room.peers| && room.peers[i].id == s.peer.value;
      assert room.peers[i] == Peer(s.peer.value, link);
    }
  }

  lemma LeaveKeeps(c: Config, sv: Server, link: Link)
    requires ServerOk(c, sv) && link in sv.socks && sv.socks[link].room.Some? && sv.socks[link].peer.Some?
    ensures var s := sv.socks[link];
            ServerOk(c, Settle(Forget(sv, link), Leave(sv.reg, s.room.value, s.peer.value)))
  {
    var s := sv.socks[link];
    var k, peer := s.room.value, s.peer.value;
    NamedOrNowhere(c, sv, link);
    if k in sv.reg && HasPeer(sv.reg[k], peer) {
      var rest := WithoutPeer(sv.reg[k].peers, peer);
      WithoutPeerDistinct(c, sv, k, peer);
      forall i | 0 <= i < |rest|
        ensures Unregistered(sv.reg - {k}, rest[i].link)
      {
        PeersGoneWithRoom(c, sv, k, rest, i);
      }
      RemoveRoomKeeps(c, sv, k);
      var sv1 := sv.(reg := sv.reg - {k});
      ForgetKeeps(c, sv1, link, s.ready);
      CloseLinksKeeps(c, Forget(sv1, link), rest, PeerEnded);
      assert sv.reg[k := sv.reg[k].(peers := rest)] - {k} == sv.reg - {k};
    } else {
      ForgetKeeps(c, sv, link, s.ready);
    }
  }

  lemma ViewAppend(inbox: seq<ServerMessage>, msg: ServerMessage)
    ensures msg.PeerJoined? ==> View(inbox + [msg]) == View(inbox) + {msg.peer}
    ensures msg.PeerLeft? ==> View(inbox + [msg]) == View(inbox) - {msg.peer}
    ensures msg.Joined? ==> View(inbox + [msg]) == set p | p in msg.participants
    ensures LatestToken(inbox + [msg]) ==
            if (msg.Created? || msg.Joined? || msg.PeerJoined?) && msg.token.Some? then msg.token else LatestToken(inbox)
  {
    InboxAppend(inbox, msg);
  }

  /** One of the peers left behind by a drop. */
  lemma SurvivorOk(c: Config, sv: Server, k: RoomId, peer: PeerId, p: Peer, now: int, s1: Socket, socks1: map<Link, Socket>)
    requires ServerOk(c, sv) && k in sv.reg && HasPeer(sv.reg[k], peer)
    requires p in sv.reg[k].peers && p.id != peer && p.link in sv.socks && p.link in socks1
    requires socks1[p.link] == s1 == Told(sv.socks[p.link], PeerLeft(peer))
    ensures PeerOk(c, Disconnect(sv.reg, k, peer, now).reg[k], p, socks1)
  {
    var room := sv.reg[k];
    assert RoomOk(room);
    var i :| 0 <= i < |room.peers| && room.peers[i] == p;
    assert PeerOk(c, room, room.peers[i], sv.socks);
    var room1 := Disconnect(sv.reg, k, peer, now).reg[k];
    assert Metadata(room1) == Metadata(room);
    WithoutPeerDistinct(c, sv, k, peer);
    assert room1.peers == [p];
    ViewAppend(sv.socks[p.link].inbox, PeerLeft(peer));
    assert Others(room1, p.id) == {};
    assert Others(room, p.id) == {peer};
  }

  /** Whom a drop is announced to. */
  function LeftBehind(reg: Registry, k: RoomId, peer: PeerId): seq<Peer>
    requires k in reg
  {
    if reg[k].state == Paired then WithoutPeer(reg[k].peers, peer) else []
  }

  ghost predicate Dropping(c: Config, sv: Server, link: Link, k: RoomId, peer: PeerId) {
    && ServerOk(c, sv) && link in sv.socks && sv.socks[link].ready != Closed
    && sv.socks[link].room == Some(k) && sv.socks[link].peer == Some(peer)
    && k in sv.reg && HasPeer(sv.reg[k], peer)
  }

  lemma ToldElsewhere(c: Config, sv: Server, link: Link, k: RoomId, peer: PeerId)
    requires Dropping(c, sv, link, k, peer)
    ensures var told := LeftBehind(sv.reg, k, peer);
            RoomTheorems.LinksDistinct(told) && !RoomTheorems.HasLink(told, link)
  {
    NamedOrNowhere(c, sv, link);
    WithoutPeerDistinct(c, sv, k, peer);
    DistinctLinks(c, sv, k);
    forall p | p in LeftBehind(sv.reg, k, peer)
      ensures p.link != link
    {
      assert p in sv.reg[k].peers && Peer(peer, link) in sv.reg[k].peers;
    }
  }

  /** The socket that closes, socket `l` afterwards. */
  function Dropped(socks: map<Link, Socket>, link: Link, told: seq<Peer>, peer: PeerId, l: Link): Socket
    requires l in socks
  {
    if l == link then socks[l].(ready := Closed, room := None, peer := None)
    else if RoomTheorems.HasLink(told, l) then Told(socks[l], PeerLeft(peer)) else socks[l]
  }

  /** onclose of a registered socket, socket by socket. */
  lemma DropSockets(c: Config, sv: Server, link: Link, k: RoomId, peer: PeerId, now: int)
    requires Dropping(c, sv, link, k, peer)
    ensures var sv1 := OnClose(sv, link, now);
            && sv1.reg == Disconnect(sv.reg, k, peer, now).reg
            && SocketsOk(sv1.socks) && sv1.socks.Keys == sv.socks.Keys
            && (forall l :: l in sv.socks ==>
                  sv1.socks[l] == Dropped(sv.socks, link, LeftBehind(sv.reg, k, peer), peer, l))
  {
    var s := sv.socks[link];
    var told := LeftBehind(sv.reg, k, peer);
    ToldElsewhere(c, sv, link, k, peer);
    assert Disconnect(sv.reg, k, peer, now).effects == Broadcast(told, PeerLeft(peer));
    var socks0 := sv.socks[link := s.(ready := Closed)];
    var sv1 := OnClose(sv, link, now);
    forall l | l in sv.socks
      ensures sv1.socks[l] == Dropped(sv.socks, link, told, peer, l)
    {
      DeliverBroadcast(socks0, told, PeerLeft(peer), l);
    }
    DropSocketsOk(sv.socks, sv1.socks, link, told, peer);
  }

  lemma DropKeeps(c: Config, sv: Server, link: Link, k: RoomId, peer: PeerId, now: int)
    requires Dropping(c, sv, link, k, peer)
    ensures ServerOk(c, OnClose(sv, link, now))
  {
    var sv1 := OnClose(sv, link, now);
    var told := LeftBehind(sv.reg, k, peer);
    DropSockets(c, sv, link, k, peer, now);
    DisconnectKeepsOk(sv.reg, k, peer, now);
    WithoutPeerDistinct(c, sv, k, peer);
    forall j, i | j in sv1.reg && 0 <= i < |sv1.reg[j].peers|
      ensures PeerOk(c, sv1.reg[j], sv1.reg[j].peers[i], sv1.socks)
    {
      if j != k {
        BystanderOk(c, sv, link, k, peer, now, j, i);
      } else {
        RoommateOk(c, sv, link, k, peer, now, sv1.reg[k].peers[i]);
      }
    }
  }

  lemma BystanderOk(c: Config, sv: Server, link: Link, k: RoomId, peer: PeerId, now: int, j: RoomId, i: nat)
    requires Dropping(c, sv, link, k, peer)
    requires j in sv.reg && j != k && i < |sv.reg[j].peers|
    ensures PeerOk(c, sv.reg[j], sv.reg[j].peers[i], OnClose(sv, link, now).socks)
  {
    var p := sv.reg[j].peers[i];
    DropSockets(c, sv, link, k, peer, now);
    WithoutPeerDistinct(c, sv, k, peer);
    NamedOrNowhere(c, sv, link);
    assert PeerOk(c, sv.reg[j], p, sv.socks);
    OtherRoomUntouched(c, sv, j, i, k, sv.reg[k].peers);
    NotAmong(sv.reg[k].peers, Peer(peer, link), p.link);
    OtherRoomUntouched(c, sv, j, i, k, LeftBehind(sv.reg, k, peer));
  }

  lemma RoommateOk(c: Config, sv: Server, link: Link, k: RoomId, peer: PeerId, now: int, p: Peer)
    requires Dropping(c, sv, link, k, peer)
    requires p in Disconnect(sv.reg, k, peer, now).reg[k].peers
    ensures PeerOk(c, Disconnect(sv.reg, k, peer, now).reg[k], p, OnClose(sv, link, now).socks)
  {
    var room := sv.reg[k];
    var sv1 := OnClose(sv, link, now);
    DropSockets(c, sv, link, k, peer, now);
    ToldElsewhere(c, sv, link, k, peer);
    WithoutPeerDistinct(c, sv, k, peer);
    assert RoomOk(room) && room.state == Paired;
    var n :| 0 <= n < |room.peers| && room.peers[n] == p;
    assert PeerOk(c, room, room.peers[n], sv.socks);
    var told := LeftBehind(sv.reg, k, peer);
    assert p in told && RoomTheorems.HasLink(told, p.link);
    SurvivorOk(c, sv, k, peer, p, now, sv1.socks[p.link], sv1.socks);
  }

  lemma NotAmong(peers: seq<Peer>, p: Peer, l: Link)
    requires p in peers && !RoomTheorems.HasLink(peers, l)
    ensures p.link != l
  {
  }

  lemma DropSocketsOk(socks: map<Link, Socket>, socks1: map<Link, Socket>, link: Link, told: seq<Peer>, peer: PeerId)
    requires SocketsOk(socks) && link in socks && socks1.Keys == socks.Keys
    requires forall l :: l in socks ==> socks1[l] == Dropped(socks, link, told, peer, l)
    ensures SocketsOk(socks1)
  {
    forall l | l in socks1
      ensures SocketOk(socks1[l]) && (l != link ==> socks1[l].peer == socks[l].peer)
    {
      assert SocketOk(socks[l]);
    }
  }

  lemma CloseKeeps(c: Config, sv: Server, link: Link, now: int)
    requires ServerOk(c, sv)
    ensures ServerOk(c, OnClose(sv, link, now))
  {
    if link in sv.socks && sv.socks[link].ready != Closed {
      var s := sv.socks[link];
      NamedOrNowhere(c, sv, link);
      assert SocketOk(s);
      if s.peer.Some? && s.room.value in sv.reg && HasPeer(sv.reg[s.room.value], s.peer.value) {
        DropKeeps(c, sv, link, s.room.value, s.peer.value, now);
      } else {
        ForgetKeeps(c, sv, link, Closed);
        assert sv.socks[link := s.(ready := Closed)][link := s.(ready := Closed, room := None, peer := None)]
            == sv.socks[link := s.(ready := Closed, room := None, peer := None)];
      }
    }
  }

  /** The room a join is admitted to, in the map already or just rebuilt. */
  function RoomBefore(c: Config, reg: Registry, roomId: RoomId, token: Option<Presented>, now: int): Option<Room> {
    if roomId in reg then Some(reg[roomId]) else Recover(c, reg, roomId, token, now)
  }

  ghost predicate Joining(c: Config, sv: Server, link: Link, roomId: RoomId, token: Option<Presented>,
                          peer: PeerId, now: int)
  {
    && ServerOk(c, sv) && Fresh(sv, peer)
    && link in sv.socks && sv.socks[link].ready == Opened && sv.socks[link].peer.None?
    && Join(c, sv.reg, roomId, token, peer, link, now).result.JoinOk?
  }

  /** Socket `l` after a join by `link`. */
  function AfterJoin(socks: map<Link, Socket>, link: Link, peers: seq<Peer>, roomId: RoomId, peer: PeerId,
                     r: Result, l: Link): Socket
    requires l in socks && r.JoinOk?
  {
    if l == link then
      Socket(Opened, Some(roomId), Some(peer),
             socks[l].inbox + [Joined(peer, r.participants, r.graceDurationMs, r.token)])
    else if RoomTheorems.HasLink(peers, l) then Told(socks[l], PeerJoined(peer, r.token))
    else socks[l]
  }

  lemma FreshInRooms(c: Config, sv: Server, peer: PeerId, k: RoomId)
    requires ServerOk(c, sv) && Fresh(sv, peer) && k in sv.reg
    ensures !HasPeer(sv.reg[k], peer)
  {
    forall i | 0 <= i < |sv.reg[k].peers|
      ensures sv.reg[k].peers[i].id != peer
    {
      assert PeerOk(c, sv.reg[k], sv.reg[k].peers[i], sv.socks);
    }
  }

  lemma JoinerElsewhere(c: Config, sv: Server, link: Link, roomId: RoomId, token: Option<Presented>,
                        peer: PeerId, now: int)
    requires Joining(c, sv, link, roomId, token, peer, now)
    ensures var peers := RoomBefore(c, sv.reg, roomId, token, now).value.peers;
            RoomTheorems.LinksDistinct(peers) && !RoomTheorems.HasLink(peers, link)
  {
    NamedOrNowhere(c, sv, link);
    if roomId in sv.reg {
      DistinctLinks(c, sv, roomId);
    }
  }

  lemma JoinSockets(c: Config, sv: Server, link: Link, roomId: RoomId, token: Option<Presented>,
                    peer: PeerId, now: int)
    requires Joining(c, sv, link, roomId, token, peer, now)
    ensures var sv1 := OnJoin(c, sv, link, roomId, token, peer, now);
            var o := Join(c, sv.reg, roomId, token, peer, link, now);
            var peers := RoomBefore(c, sv.reg, roomId, token, now).value.peers;
            && sv1.reg == o.reg
            && SocketsOk(sv1.socks) && sv1.socks.Keys == sv.socks.Keys
            && (forall l :: l in sv.socks ==>
                  sv1.socks[l] == AfterJoin(sv.socks, link, peers, roomId, peer, o.result, l))
  {
    var o := Join(c, sv.reg, roomId, token, peer, link, now);
    var peers := RoomBefore(c, sv.reg, roomId, token, now).value.peers;
    var sv1 := OnJoin(c, sv, link, roomId, token, peer, now);
    forall l | l in sv.socks
      ensures sv1.socks[l] == AfterJoin(sv.socks, link, peers, roomId, peer, o.result, l)
    {
      OneSocketAfterJoin(c, sv, link, roomId, token, peer, now, l);
    }
    JoinSocketsOk(sv, sv1.socks, link, peers, roomId, peer, o.result);
  }

  lemma OneSocketAfterJoin(c: Config, sv: Server, link: Link, roomId: RoomId, token: Option<Presented>,
                           peer: PeerId, now: int, l: Link)
    requires Joining(c, sv, link, roomId, token, peer, now) && l in sv.socks
    ensures var sv1 := OnJoin(c, sv, link, roomId, token, peer, now);
            var o := Join(c, sv.reg, roomId, token, peer, link, now);
            var peers := RoomBefore(c, sv.reg, roomId, token, now).value.peers;
            l in sv1.socks && sv1.socks[l] == AfterJoin(sv.socks, link, peers, roomId, peer, o.result, l)
  {
    var o := Join(c, sv.reg, roomId, token, peer, link, now);
    var peers := RoomBefore(c, sv.reg, roomId, token, now).value.peers;
    JoinerElsewhere(c, sv, link, roomId, token, peer, now);
    JoinTells(c, sv.reg, roomId, token, peer, link, now);
    EnteredSocket(sv, link, peers, roomId, peer, o.result, l);
  }

  /** Who else is in the room hears of the newcomer. */
  lemma JoinTells(c: Config, reg: Registry, roomId: RoomId, token: Option<Presented>,
                  peer: PeerId, link: Link, now: int)
    requires Join(c, reg, roomId, token, peer, link, now).result.JoinOk?
    ensures var o := Join(c, reg, roomId, token, peer, link, now);
            && o.result.peer == peer
            && o.effects == Broadcast(RoomBefore(c, reg, roomId, token, now).value.peers, PeerJoined(peer, o.result.token))
  {
  }

  lemma EnteredSocket(sv: Server, link: Link, peers: seq<Peer>, roomId: RoomId, peer: PeerId, r: Result, l: Link)
    requires r.JoinOk? && l in sv.socks && link in sv.socks && sv.socks[link].ready == Opened
    requires RoomTheorems.LinksDistinct(peers) && !RoomTheorems.HasLink(peers, link)
    ensures var told := sv.(socks := Deliver(sv.socks, Broadcast(peers, PeerJoined(peer, r.token))));
            var msg := Joined(peer, r.participants, r.graceDurationMs, r.token);
            var sv1 := Reply(Enter(told, link, roomId, peer), link, msg);
            l in sv1.socks && sv1.socks[l] == AfterJoin(sv.socks, link, peers, roomId, peer, r, l)
  {
    DeliverBroadcast(sv.socks, peers, PeerJoined(peer, r.token), l);
    DeliverBroadcast(sv.socks, peers, PeerJoined(peer, r.token), link);
  }

  lemma JoinSocketsOk(sv: Server, socks1: map<Link, Socket>, link: Link, peers: seq<Peer>, roomId: RoomId,
                      peer: PeerId, r: Result)
    requires SocketsOk(sv.socks) && Fresh(sv, peer) && r.JoinOk?
    requires link in sv.socks && sv.socks[link].ready == Opened && socks1.Keys == sv.socks.Keys
    requires forall l :: l in sv.socks ==> socks1[l] == AfterJoin(sv.socks, link, peers, roomId, peer, r, l)
    ensures SocketsOk(socks1)
  {
    forall l | l in socks1
      ensures SocketOk(socks1[l]) && (l != link ==> socks1[l].peer == sv.socks[l].peer)
    {
      assert SocketOk(sv.socks[l]) && SocketOk(sv.socks[link]);
    }
  }

  /** What the registry looks like after an accepted join. */
  lemma JoinRegistry(c: Config, reg: Registry, roomId: RoomId, token: Option<Presented>,
                     peer: PeerId, link: Link, now: int)
    requires Join(c, reg, roomId, token, peer, link, now).result.JoinOk?
    ensures var o := Join(c, reg, roomId, token, peer, link, now);
            var room := RoomBefore(c, reg, roomId, token, now).value;
            && roomId in o.reg && o.reg - {roomId} == reg - {roomId}
            && o.reg[roomId].peers == room.peers + [Peer(peer, link)]
            && o.reg[roomId].id == room.id
            && o.result.participants == Ids(room.peers)
            && o.result.token == (if c.recovery then Some(Metadata(o.reg[roomId])) else None)
            && (roomId in reg ==> |room.peers| < 2) && (roomId !in reg ==> room.peers == [] && room.id == roomId)
            && (|room.peers| + 1 < 2 ==> Metadata(o.reg[roomId]) == Metadata(room))
  {
  }

  lemma JoinKeeps(c: Config, sv: Server, link: Link, roomId: RoomId, token: Option<Presented>,
                  peer: PeerId, now: int)
    requires Joining(c, sv, link, roomId, token, peer, now)
    ensures ServerOk(c, OnJoin(c, sv, link, roomId, token, peer, now))
  {
    var sv1 := OnJoin(c, sv, link, roomId, token, peer, now);
    JoinSockets(c, sv, link, roomId, token, peer, now);
    if roomId in sv.reg {
      FreshInRooms(c, sv, peer, roomId);
    }
    RoomTheorems.JoinKeepsOk(c, sv.reg, roomId, token, peer, link, now);
    forall j, i | j in sv1.reg && 0 <= i < |sv1.reg[j].peers|
      ensures PeerOk(c, sv1.reg[j], sv1.reg[j].peers[i], sv1.socks)
    {
      PeerAfterJoinOk(c, sv, link, roomId, token, peer, now, j, i);
    }
  }

  lemma PeerAfterJoinOk(c: Config, sv: Server, link: Link, roomId: RoomId, token: Option<Presented>,
                        peer: PeerId, now: int, j: RoomId, i: nat)
    requires Joining(c, sv, link, roomId, token, peer, now)
    requires var reg := OnJoin(c, sv, link, roomId, token, peer, now).reg; j in reg && i < |reg[j].peers|
    ensures var sv1 := OnJoin(c, sv, link, roomId, token, peer, now);
            PeerOk(c, sv1.reg[j], sv1.reg[j].peers[i], sv1.socks)
  {
    var sv1 := OnJoin(c, sv, link, roomId, token, peer, now);
    JoinSockets(c, sv, link, roomId, token, peer, now);
    JoinRegistry(c, sv.reg, roomId, token, peer, link, now);
    if j != roomId {
      assert j in sv.reg - {roomId} && sv1.reg[j] == (sv.reg - {roomId})[j];
      JoinBystanderOk(c, sv, link, roomId, token, peer, now, j, i);
    } else if i < |sv1.reg[j].peers| - 1 {
      HostOk(c, sv, link, roomId, token, peer, now, i);
    } else {
      JoinerOk(c, sv, link, roomId, token, peer, now);
    }
  }

  lemma JoinBystanderOk(c: Config, sv: Server, link: Link, roomId: RoomId, token: Option<Presented>,
                        peer: PeerId, now: int, j: RoomId, i: nat)
    requires Joining(c, sv, link, roomId, token, peer, now)
    requires j in sv.reg && j != roomId && i < |sv.reg[j].peers|
    ensures PeerOk(c, sv.reg[j], sv.reg[j].peers[i], OnJoin(c, sv, link, roomId, token, peer, now).socks)
  {
    JoinSockets(c, sv, link, roomId, token, peer, now);
    JoinRegistry(c, sv.reg, roomId, token, peer, link, now);
    assert PeerOk(c, sv.reg[j], sv.reg[j].peers[i], sv.socks);
    if roomId in sv.reg {
      OtherRoomUntouched(c, sv, j, i, roomId, sv.reg[roomId].peers);
    }
  }

  /** A peer that was in the room when another one joined. */
  lemma HostOk(c: Config, sv: Server, link: Link, roomId: RoomId, token: Option<Presented>,
               peer: PeerId, now: int, i: nat)
    requires Joining(c, sv, link, roomId, token, peer, now)
    requires i < |RoomBefore(c, sv.reg, roomId, token, now).value.peers|
    ensures var sv1 := OnJoin(c, sv, link, roomId, token, peer, now);
            roomId in sv1.reg && i < |sv1.reg[roomId].peers| && PeerOk(c, sv1.reg[roomId], sv1.reg[roomId].peers[i], sv1.socks)
  {
    var sv1 := OnJoin(c, sv, link, roomId, token, peer, now);
    var o := Join(c, sv.reg, roomId, token, peer, link, now);
    JoinSockets(c, sv, link, roomId, token, peer, now);
    JoinRegistry(c, sv.reg, roomId, token, peer, link, now);
    JoinerElsewhere(c, sv, link, roomId, token, peer, now);
    var room := sv.reg[roomId];
    var p := room.peers[i];
    FreshInRooms(c, sv, peer, roomId);
    assert room.peers == [p] && p.id != peer;
    assert PeerOk(c, room, room.peers[i], sv.socks);
    assert RoomTheorems.HasLink(room.peers, p.link);
    ViewAppend(sv.socks[p.link].inbox, PeerJoined(peer, o.result.token));
    assert Others(room, p.id) == {};
    var room1 := sv1.reg[roomId];
    assert room1.peers == [p, Peer(peer, link)];
    OthersOfTwo(room1, 0);
  }

  lemma OthersOfTwo(room: Room, i: nat)
    requires |room.peers| == 2 && i < 2 && room.peers[0].id != room.peers[1].id
    ensures Others(room, room.peers[i].id) == {room.peers[1 - i].id}
  {
    assert room.peers[1 - i].id in Others(room, room.peers[i].id);
  }

  lemma JoinerOk(c: Config, sv: Server, link: Link, roomId: RoomId, token: Option<Presented>,
                 peer: PeerId, now: int)
    requires Joining(c, sv, link, roomId, token, peer, now)
    ensures var sv1 := OnJoin(c, sv, link, roomId, token, peer, now);
            roomId in sv1.reg && PeerOk(c, sv1.reg[roomId], Peer(peer, link), sv1.socks)
  {
    var sv1 := OnJoin(c, sv, link, roomId, token, peer, now);
    var o := Join(c, sv.reg, roomId, token, peer, link, now);
    JoinSockets(c, sv, link, roomId, token, peer, now);
    JoinRegistry(c, sv.reg, roomId, token, peer, link, now);
    var r := o.result;
    ViewAppend(sv.socks[link].inbox, Joined(peer, r.participants, r.graceDurationMs, r.token));
    var room := RoomBefore(c, sv.reg, roomId, token, now).value;
    if roomId in sv.reg {
      FreshInRooms(c, sv, peer, roomId);
    }
    OthersOfNewcomer(sv1.reg[roomId], room.peers, Peer(peer, link));
  }

  lemma OthersOfNewcomer(room: Room, peers: seq<Peer>, p: Peer)
    requires room.peers == peers + [p]
    requires forall i :: 0 <= i < |peers| ==> peers[i].id != p.id
    ensures Others(room, p.id) == set q | q in Ids(peers)
  {
    forall q | q in Ids(peers)
      ensures q in Others(room, p.id)
    {
      var i :| 0 <= i < |peers| && Ids(peers)[i] == q;
      assert room.peers[i].id == q;
    }
  }

  lemma OnJoinKeeps(c: Config, sv: Server, link: Link, roomId: RoomId, token: Option<Presented>,
                    peer: PeerId, now: int)
    requires ServerOk(c, sv) && Fresh(sv, peer)
    requires link in sv.socks && sv.socks[link].ready == Opened && sv.socks[link].peer.None?
    ensures ServerOk(c, OnJoin(c, sv, link, roomId, token, peer, now))
  {
    var o := Join(c, sv.reg, roomId, token, peer, link, now);
    if o.result.JoinOk? {
      JoinKeeps(c, sv, link, roomId, token, peer, now);
    } else {
      assert o.effects == [] && Deliver(sv.socks, []) == sv.socks;
      assert o.reg == sv.reg;
      SendNeutralKeeps(c, sv, link, ErrorMessage(o.result.code));
      StartClosingKeeps(c, Reply(sv, link, ErrorMessage(o.result.code)), link);
    }
  }

  /** Every message a socket can deliver keeps the server sound. */
  lemma MessageKeeps(c: Config, sv: Server, link: Link, msg: ClientMessage, lim: Limits, peer: PeerId, now: int)
    requires ServerOk(c, sv) && Fresh(sv, peer)
    ensures ServerOk(c, OnMessage(c, sv, link, msg, lim, peer, now))
  {
    if link in sv.socks && sv.socks[link].ready == Opened {
      SendNeutralKeeps(c, sv, link, ErrorMessage(RateLimited));
      SendNeutralKeeps(c, sv, link, ErrorMessage(ConfigInvalid));
      SendNeutralKeeps(c, sv, link, Pong);
      if lim.message {
        RequestKeeps(c, sv, link, msg, lim, peer, now);
      }
    }
  }

  lemma RequestKeeps(c: Config, sv: Server, link: Link, msg: ClientMessage, lim: Limits, peer: PeerId, now: int)
    requires ServerOk(c, sv) && Fresh(sv, peer) && lim.message
    requires link in sv.socks && sv.socks[link].ready == Opened
    requires ServerOk(c, Reply(sv, link, ErrorMessage(RateLimited))) && ServerOk(c, Reply(sv, link, ErrorMessage(ConfigInvalid)))
    requires ServerOk(c, Reply(sv, link, Pong))
    ensures ServerOk(c, OnMessage(c, sv, link, msg, lim, peer, now))
  {
    var s := sv.socks[link];
    match msg {
      case Ping =>
      case CreateRequest(roomId, invite, grace) =>
        if s.peer.None? && lim.request {
          CreateKeeps(c, sv, link, roomId, invite, grace, peer, now);
        }
      case JoinRequest(roomId, token) =>
        if s.peer.None? && lim.request {
          OnJoinKeeps(c, sv, link, roomId, token, peer, now);
        }
      case SignalRequest(roomId, to, payload) =>
        if s.room == Some(roomId) && s.peer.Some? {
          var effects := Relay(sv.reg, roomId, s.peer.value, to, payload);
          if effects != [] {
            assert effects == [effects[0]];
            DeliverAppend(sv.socks, [], effects[0]);
            SendNeutralKeeps(c, sv, effects[0].to, effects[0].msg);
          }
        }
      case LeaveRequest =>
        if s.room.Some? && s.peer.Some? {
          LeaveKeeps(c, sv, link);
        }
    }
  }

  /** The relay never crosses rooms: a signal goes only from a member of a room
      to a member of the same room. */
  lemma SignalsStayInTheRoom(c: Config, sv: Server, roomId: RoomId, from: PeerId, to: PeerId, payload: string)
    requires ServerOk(c, sv)
    ensures forall e :: e in Relay(sv.reg, roomId, from, to, payload) ==>
              && roomId in sv.reg && HasPeer(sv.reg[roomId], from)
              && e == Send(e.to, Signal(from, payload)) && Peer(to, e.to) in sv.reg[roomId].peers
  {
  }
}
