/** The room state machine of one registry, as functions on values.  Class
    RoomRegistry (RoomRegistry.dfy) is proved against these functions. */
module Rooms {
  import opened Wrappers
  import opened Protocol

  datatype RoomState = Waiting | Paired | Grace

  datatype Peer = Peer(id: PeerId, link: Link)

  /** `peers` is in insertion order; a room holds at most two. A room has one
      timer exactly when it has a deadline, so the timer itself is left to the
      class. */
  datatype Room = Room(
    id: RoomId,
    state: RoomState,
    peers: seq<Peer>,
    creator: Option<PeerId>,
    inviteWindowMs: int,
    graceDurationMs: int,
    deadline: Option<int>,
    createdAt: int,
    pairedAt: Option<int>)

  type Registry = map<RoomId, Room>

  /** What every room satisfies: paired exactly with two peers, waiting exactly
      until the first pairing, a countdown exactly when not paired, and in
      "waiting" a countdown that ends with the invite window. */
  ghost predicate RoomOk(room: Room) {
    && (room.state == Paired <==> |room.peers| == 2)
    && |room.peers| <= 2
    && (|room.peers| == 2 ==> room.peers[0].id != room.peers[1].id)
    && (room.state == Waiting <==> room.pairedAt.None?)
    && (room.state == Paired <==> room.deadline.None?)
    && (room.state == Waiting ==> room.deadline == Some(room.createdAt + room.inviteWindowMs))
  }

  datatype Config = Config(maxRooms: int, recovery: bool, maxAgeMs: int)

  ghost predicate RegistryOk(reg: Registry) {
    forall k :: k in reg ==> reg[k].id == k && RoomOk(reg[k])
  }

  /** What a call does to the outside: messages handed to links, links closed. */
  datatype Effect = Send(to: Link, msg: ServerMessage) | Close(link: Link)

  /** A number received in a JSON message. */
  datatype Millis = Finite(ms: int) | NonFinite

  /** A recovery token as presented: signed by a holder of the secret, or any
      other text, which never verifies. */
  datatype Presented = Genuine(payload: RecoveryPayload) | Bogus

  datatype Result =
    | CreateOk(peer: PeerId, token: Option<RecoveryPayload>)
    | JoinOk(peer: PeerId, participants: seq<PeerId>, graceDurationMs: int, token: Option<RecoveryPayload>)
    | Refused(code: ErrorCode)
    | Done

  datatype Outcome = Outcome(reg: Registry, result: Result, effects: seq<Effect>)

  const CAPACITY := 2

  function ClampInviteWindow(ms: int): (r: int)
    ensures INVITE_WINDOW_MIN_MS <= r <= INVITE_WINDOW_MAX_MS
    ensures INVITE_WINDOW_MIN_MS <= ms <= INVITE_WINDOW_MAX_MS ==> r == ms
    ensures forall x :: INVITE_WINDOW_MIN_MS <= x <= INVITE_WINDOW_MAX_MS ==> Distance(r, ms) <= Distance(x, ms)
  {
    Min(Max(ms, INVITE_WINDOW_MIN_MS), INVITE_WINDOW_MAX_MS)
  }

  function ClampGrace(ms: int): (r: int)
    ensures GRACE_MIN_MS <= r <= GRACE_MAX_MS
    ensures GRACE_MIN_MS <= ms <= GRACE_MAX_MS ==> r == ms
    ensures forall x :: GRACE_MIN_MS <= x <= GRACE_MAX_MS ==> Distance(r, ms) <= Distance(x, ms)
  {
    Min(Max(ms, GRACE_MIN_MS), GRACE_MAX_MS)
  }

  function Distance(a: int, b: int): int { if a < b then b - a else a - b }

  function Ids(peers: seq<Peer>): (ids: seq<PeerId>)
    ensures |ids| == |peers|
    ensures forall i :: 0 <= i < |ids| ==> ids[i] == peers[i].id
  {
    seq(|peers|, i requires 0 <= i < |peers| => peers[i].id)
  }

  predicate HasPeer(room: Room, peer: PeerId) {
    exists i :: 0 <= i < |room.peers| && room.peers[i].id == peer
  }

  /** The link registered for a peer id. */
  function LinkOf(peers: seq<Peer>, id: PeerId): (link: Link)
    requires exists i :: 0 <= i < |peers| && peers[i].id == id
    ensures exists i :: 0 <= i < |peers| && peers[i] == Peer(id, link)
  {
    if peers[0].id == id then peers[0].link else LinkOf(peers[1..], id)
  }

  function WithoutPeer(peers: seq<Peer>, peer: PeerId): seq<Peer> {
    if peers == [] then []
    else if peers[0].id == peer then WithoutPeer(peers[1..], peer)
    else [peers[0]] + WithoutPeer(peers[1..], peer)
  }

  /** One copy of `msg` for every peer, in order. */
  function Broadcast(peers: seq<Peer>, msg: ServerMessage): seq<Effect> {
    if peers == [] then []
    else Broadcast(peers[..|peers| - 1], msg) + [Send(peers[|peers| - 1].link, msg)]
  }

  function CloseEffects(peers: seq<Peer>, reason: ClosedReason): seq<Effect> {
    if peers == [] then []
    else
      var last := peers[|peers| - 1].link;
      CloseEffects(peers[..|peers| - 1], reason) + [Send(last, RoomClosed(reason)), Close(last)]
  }

  function Metadata(room: Room): RecoveryPayload {
    RecoveryPayload(room.id, room.createdAt, room.pairedAt, room.inviteWindowMs, room.graceDurationMs)
  }

  function IssueToken(c: Config, room: Room): Option<RecoveryPayload> {
    if c.recovery then Some(Metadata(room)) else None
  }

  function Create(c: Config, reg: Registry, roomId: RoomId, invite: Millis, grace: Millis,
                  peer: PeerId, link: Link, now: int): Outcome
  {
    if !IsPathToken(roomId.text) || invite.NonFinite? || grace.NonFinite? then
      Outcome(reg, Refused(ConfigInvalid), [])
    else if roomId in reg then
      Outcome(reg, Refused(RoomExists), [])
    else if |reg| >= c.maxRooms then
      Outcome(reg, Refused(RateLimited), [])
    else
      var window := ClampInviteWindow(invite.ms);
      var room := Room(roomId, Waiting, [Peer(peer, link)], Some(peer), window, ClampGrace(grace.ms),
                       Some(now + window), now, None);
      Outcome(reg[roomId := room], CreateOk(peer, IssueToken(c, room)), [])
  }

  /** The room a token rebuilds, when it does. */
  function Recover(c: Config, reg: Registry, roomId: RoomId, token: Option<Presented>, now: int): Option<Room> {
    if token.None? || !c.recovery || token.value.Bogus? then None
    else
      var p := token.value.payload;
      if p.roomId != roomId || |reg| >= c.maxRooms then None
      else if p.pairedAt.None? then
        if now - p.createdAt > p.inviteWindowMs then None
        else Some(Room(roomId, Waiting, [], None, p.inviteWindowMs, p.graceDurationMs,
                       Some(now + (p.createdAt + p.inviteWindowMs - now)), p.createdAt, None))
      else
        if now - p.pairedAt.value > c.maxAgeMs then None
        else Some(Room(roomId, Grace, [], None, p.inviteWindowMs, p.graceDurationMs,
                       Some(now + p.graceDurationMs), p.createdAt, p.pairedAt))
  }

  /** The room as it is about to take in one more peer: the second one pairs it. */
  function PairedBy(room: Room, now: int): Room {
    if |room.peers| + 1 == CAPACITY then room.(state := Paired, pairedAt := Some(now), deadline := None) else room
  }

  /** Admission to a room that is in the map, recovered or not. */
  function Admit(c: Config, reg: Registry, roomId: RoomId, room: Room, peer: PeerId, link: Link, now: int): Outcome {
    if |room.peers| >= CAPACITY then
      Outcome(reg[roomId := room], Refused(RoomIsFull), [])
    else
      var r1 := PairedBy(room, now);
      var token := IssueToken(c, r1);
      Outcome(reg[roomId := r1.(peers := r1.peers + [Peer(peer, link)])],
              JoinOk(peer, Ids(room.peers), room.graceDurationMs, token),
              Broadcast(room.peers, PeerJoined(peer, token)))
  }

  function Join(c: Config, reg: Registry, roomId: RoomId, token: Option<Presented>,
                peer: PeerId, link: Link, now: int): Outcome
  {
    if roomId in reg then Admit(c, reg, roomId, reg[roomId], peer, link, now)
    else
      var room := Recover(c, reg, roomId, token, now);
      if room.None? then Outcome(reg, Refused(RoomNotFound), [])
      else Admit(c, reg, roomId, room.value, peer, link, now)
  }

  /** The opaque relay: one message to a member of the sender's own room. */
  function Relay(reg: Registry, roomId: RoomId, from: PeerId, to: PeerId, payload: string): seq<Effect> {
    if roomId !in reg || !HasPeer(reg[roomId], from) || !HasPeer(reg[roomId], to) then []
    else
      [Send(LinkOf(reg[roomId].peers, to), Signal(from, payload))]
  }

  function CloseRoom(reg: Registry, roomId: RoomId, reason: ClosedReason): Outcome
    requires roomId in reg
  {
    Outcome(reg - {roomId}, Done, CloseEffects(reg[roomId].peers, reason))
  }

  function Leave(reg: Registry, roomId: RoomId, peer: PeerId): Outcome {
    if roomId !in reg || !HasPeer(reg[roomId], peer) then Outcome(reg, Done, [])
    else
      var room := reg[roomId];
      CloseRoom(reg[roomId := room.(peers := WithoutPeer(room.peers, peer))], roomId, PeerEnded)
  }

  /** What a drop does to the room the peer was just removed from. */
  function Dropped(reg: Registry, roomId: RoomId, peer: PeerId, now: int): Outcome
    requires roomId in reg
  {
    var room := reg[roomId];
    if room.state == Paired then
      Outcome(reg[roomId := room.(state := Grace, deadline := Some(now + room.graceDurationMs))],
              Done, Broadcast(room.peers, PeerLeft(peer)))
    else
      Outcome(reg, Done, [])
  }

  function Disconnect(reg: Registry, roomId: RoomId, peer: PeerId, now: int): Outcome {
    if roomId !in reg || !HasPeer(reg[roomId], peer) then Outcome(reg, Done, [])
    else
      Dropped(reg[roomId := reg[roomId].(peers := WithoutPeer(reg[roomId].peers, peer))], roomId, peer, now)
  }

  function ExpiryReason(room: Room): ClosedReason {
    if room.state == Waiting then InviteExpired else GraceExpired
  }

  /** The pending timer of a room fires. */
  function Expire(reg: Registry, roomId: RoomId): Outcome
    requires roomId in reg
  {
    CloseRoom(reg, roomId, ExpiryReason(reg[roomId]))
  }

  // ---- what one call keeps ----

  /** Removing a registered peer removes exactly that one. */
  lemma WithoutPeerOk(peers: seq<Peer>, peer: PeerId)
    requires |peers| <= 2 && (|peers| == 2 ==> peers[0].id != peers[1].id)
    requires exists i :: 0 <= i < |peers| && peers[i].id == peer
    ensures |WithoutPeer(peers, peer)| == |peers| - 1
    ensures forall p :: p in WithoutPeer(peers, peer) <==> p in peers && p.id != peer
  {
    if |peers| == 1 {
      assert peers[1..] == [];
    } else {
      var p0, p1 := peers[0], peers[1];
      assert peers == [p0, p1] && peers[1..] == [p1] && peers[1..][1..] == [];
      assert [p1][1..] == [];
      assert WithoutPeer([p1], peer) == if p1.id == peer then [] else [p1];
      assert WithoutPeer(peers, peer) == if p0.id == peer then [p1] else [p0] + [];
    }
  }

  lemma CreateKeepsOk(c: Config, reg: Registry, roomId: RoomId, invite: Millis, grace: Millis,
                      peer: PeerId, link: Link, now: int)
    requires RegistryOk(reg)
    ensures RegistryOk(Create(c, reg, roomId, invite, grace, peer, link, now).reg)
  {
  }

  lemma AdmitKeepsOk(c: Config, reg: Registry, roomId: RoomId, room: Room, peer: PeerId, link: Link, now: int)
    requires RegistryOk(reg) && room.id == roomId && RoomOk(room) && !HasPeer(room, peer)
    ensures RegistryOk(Admit(c, reg, roomId, room, peer, link, now).reg)
  {
  }

  /** Whether a recovered room is already in the map makes no difference. */
  lemma AdmitFromMap(c: Config, reg: Registry, roomId: RoomId, room: Room, peer: PeerId, link: Link, now: int)
    ensures Admit(c, reg[roomId := room], roomId, room, peer, link, now) == Admit(c, reg, roomId, room, peer, link, now)
  {
  }

  lemma DisconnectKeepsOk(reg: Registry, roomId: RoomId, peer: PeerId, now: int)
    requires RegistryOk(reg)
    ensures RegistryOk(Disconnect(reg, roomId, peer, now).reg)
  {
    if roomId in reg && HasPeer(reg[roomId], peer) {
      WithoutPeerOk(reg[roomId].peers, peer);
    }
  }
}
