/** What the room state machine guarantees across calls: restarts, countdowns,
    the room cap, and who hears that a room closed. */
module RoomTheorems {
  import opened Wrappers
  import opened Protocol
  import opened Rooms

  // ---- the calls a registry answers, as data ----

  datatype Op =
    | OpCreate(invite: Millis, grace: Millis, peer: PeerId, link: Link)
    | OpJoin(token: Option<Presented>, peer: PeerId, link: Link)
    | OpLeave(peer: PeerId)
    | OpDisconnect(peer: PeerId)
    | OpExpire
    | OpSignal(from: PeerId, to: PeerId, payload: string)

  function Apply(c: Config, reg: Registry, roomId: RoomId, op: Op, now: int): Outcome {
    match op
    case OpCreate(invite, grace, peer, link) => Create(c, reg, roomId, invite, grace, peer, link, now)
    case OpJoin(token, peer, link) => Join(c, reg, roomId, token, peer, link, now)
    case OpLeave(peer) => Leave(reg, roomId, peer)
    case OpDisconnect(peer) => Disconnect(reg, roomId, peer, now)
    case OpExpire => if roomId in reg then Expire(reg, roomId) else Outcome(reg, Done, [])
    case OpSignal(from, to, payload) => Outcome(reg, Done, Relay(reg, roomId, from, to, payload))
  }

  /** Random peer ids are fresh: a newcomer is never already in the room. */
  predicate FreshFor(reg: Registry, roomId: RoomId, op: Op) {
    (op.OpCreate? || op.OpJoin?) && roomId in reg ==> !HasPeer(reg[roomId], op.peer)
  }

  /** Every call keeps every room well formed. */
  lemma ApplyKeepsOk(c: Config, reg: Registry, roomId: RoomId, op: Op, now: int)
    requires RegistryOk(reg) && FreshFor(reg, roomId, op)
    ensures RegistryOk(Apply(c, reg, roomId, op, now).reg)
  {
    match op {
      case OpCreate(invite, grace, peer, link) =>
        CreateKeepsOk(c, reg, roomId, invite, grace, peer, link, now);
      case OpJoin(token, peer, link) =>
        JoinKeepsOk(c, reg, roomId, token, peer, link, now);
      case OpDisconnect(peer) =>
        DisconnectKeepsOk(reg, roomId, peer, now);
      case _ =>
    }
  }

  lemma JoinKeepsOk(c: Config, reg: Registry, roomId: RoomId, token: Option<Presented>,
                    peer: PeerId, link: Link, now: int)
    requires RegistryOk(reg) && (roomId in reg ==> !HasPeer(reg[roomId], peer))
    ensures RegistryOk(Join(c, reg, roomId, token, peer, link, now).reg)
  {
    if roomId in reg {
      AdmitKeepsOk(c, reg, roomId, reg[roomId], peer, link, now);
    } else {
      var room := Recover(c, reg, roomId, token, now);
      if room.Some? {
        AdmitKeepsOk(c, reg, roomId, room.value, peer, link, now);
      }
    }
  }

  /** A call changes at most the room it names, and adds it only below the cap. */
  lemma ApplyIsLocal(c: Config, reg: Registry, roomId: RoomId, op: Op, now: int)
    ensures var reg1 := Apply(c, reg, roomId, op, now).reg;
            && reg1 - {roomId} == reg - {roomId}
            && (roomId in reg1 && roomId !in reg ==> |reg| < c.maxRooms)
  {
  }

  lemma RoomCapHolds(c: Config, reg: Registry, roomId: RoomId, op: Op, now: int)
    requires |reg| <= Max(c.maxRooms, 0)
    ensures |Apply(c, reg, roomId, op, now).reg| <= Max(c.maxRooms, 0)
  {
    var reg1 := Apply(c, reg, roomId, op, now).reg;
    ApplyIsLocal(c, reg, roomId, op, now);
    CapArithmetic(reg, reg1, roomId);
  }

  lemma CapArithmetic(reg: Registry, reg1: Registry, roomId: RoomId)
    requires reg1 - {roomId} == reg - {roomId}
    ensures |reg1| <= |reg| || (roomId in reg1 && roomId !in reg && |reg1| == |reg| + 1)
  {
    var rest := reg.Keys - {roomId};
    assert reg1.Keys - {roomId} == (reg1 - {roomId}).Keys;
    assert rest == (reg - {roomId}).Keys;
    KeysAround(reg, roomId, rest);
    KeysAround(reg1, roomId, rest);
  }

  lemma KeysAround(reg: Registry, roomId: RoomId, rest: set<RoomId>)
    requires reg.Keys - {roomId} == rest
    ensures |reg| == |rest| + if roomId in reg then 1 else 0
  {
    assert reg.Keys == if roomId in reg then rest + {roomId} else rest;
  }

  /** A countdown never moves: whatever call leaves a room counting down that
      was counting down before, in either state, leaves its deadline, its state
      and its pairing time alone. */
  lemma CountdownNeverMoves(c: Config, reg: Registry, roomId: RoomId, op: Op, now: int, k: RoomId)
    requires RegistryOk(reg)
    requires k in reg && reg[k].deadline.Some?
    ensures var reg1 := Apply(c, reg, roomId, op, now).reg;
            k in reg1 ==>
              || (reg1[k].state == Paired && |reg1[k].peers| == 2 && reg1[k].pairedAt == Some(now))
              || (reg1[k].deadline == reg[k].deadline && reg1[k].state == reg[k].state &&
                  reg1[k].pairedAt == reg[k].pairedAt)
  {
    assert RoomOk(reg[k]);
  }

  // ---- restart and recovery ----

  /** The room survives: within its age bound at time `t`. */
  predicate WithinAge(c: Config, room: Room, t: int) {
    if room.pairedAt.None? then t - room.createdAt <= room.inviteWindowMs
    else t - room.pairedAt.value <= c.maxAgeMs
  }

  /** Drops the peers of a room one after the other, in the given order. */
  function DropAll(reg: Registry, roomId: RoomId, drops: seq<PeerId>, t: int): Registry {
    if drops == [] then reg
    else DropAll(Disconnect(reg, roomId, drops[0], t).reg, roomId, drops[1..], t)
  }

  predicate AllOf(drops: seq<PeerId>, peers: seq<Peer>) {
    && |drops| == |peers|
    && (forall i :: 0 <= i < |peers| ==> peers[i].id in drops)
  }

  /** Equal but for the creator's peer id, which nothing reads. */
  predicate SameRoom(a: Room, b: Room) {
    a.(creator := None) == b.(creator := None)
  }

  lemma DropAllLeaves(reg: Registry, roomId: RoomId, drops: seq<PeerId>, t: int)
    requires RegistryOk(reg) && roomId in reg && reg[roomId].state != Grace
    requires AllOf(drops, reg[roomId].peers)
    ensures var room := reg[roomId];
            DropAll(reg, roomId, drops, t) ==
            reg[roomId := if room.state == Paired
                          then room.(state := Grace, peers := [], deadline := Some(t + room.graceDurationMs))
                          else room.(peers := [])]
  {
    var room := reg[roomId];
    assert RoomOk(room);
    if |room.peers| == 0 {
      assert room.peers == [];
      assert reg[roomId := room] == reg;
    } else if |room.peers| == 1 {
      WithoutPeerOk(room.peers, room.peers[0].id);
      assert drops == [room.peers[0].id] && drops[1..] == [];
    } else {
      DropPair(reg, roomId, drops, t);
    }
  }

  lemma DropPair(reg: Registry, roomId: RoomId, drops: seq<PeerId>, t: int)
    requires RegistryOk(reg) && roomId in reg && reg[roomId].state == Paired
    requires AllOf(drops, reg[roomId].peers)
    ensures var room := reg[roomId];
            DropAll(reg, roomId, drops, t) ==
            reg[roomId := room.(state := Grace, peers := [], deadline := Some(t + room.graceDurationMs))]
  {
    var room := reg[roomId];
    assert RoomOk(room);
    var i := if room.peers[0].id == drops[0] then 0 else 1;
    assert room.peers[i].id == drops[0] && room.peers[1 - i].id == drops[1];
    WithoutPeerOk(room.peers, drops[0]);
    var left := WithoutPeer(room.peers, drops[0]);
    assert room.peers[1 - i] in left;
    assert left == [room.peers[1 - i]];
    var reg1 := Disconnect(reg, roomId, drops[0], t).reg;
    assert reg1[roomId].peers[0].id == drops[1];
    WithoutPeerOk(left, drops[1]);
    assert drops[1..] == [drops[1]] && drops[1..][1..] == [];
    assert DropAll(reg1, roomId, [drops[1]], t) == DropAll(Disconnect(reg1, roomId, drops[1], t).reg, roomId, [], t);
  }

  /** Restart is a double drop.  For any waiting or paired room and the token
      that carries its current metadata: wiping the registry and joining with
      that token at `t`, and dropping all its peers at `t` in any order and then
      joining, give the same answer and the same room. The wiped registry
      accepts the token exactly when the room is within its age bound. */
  lemma RestartIsDoubleDrop(c: Config, reg: Registry, roomId: RoomId, drops: seq<PeerId>,
                            peer: PeerId, link: Link, t: int)
    requires RegistryOk(reg) && roomId in reg && reg[roomId].state != Grace
    requires c.recovery && c.maxRooms > 0
    requires AllOf(drops, reg[roomId].peers)
    ensures var token := Some(Genuine(Metadata(reg[roomId])));
            var restarted := Join(c, map[], roomId, token, peer, link, t);
            var dropped := Join(c, DropAll(reg, roomId, drops, t), roomId, token, peer, link, t);
            && (restarted.result.JoinOk? <==> WithinAge(c, reg[roomId], t))
            && (restarted.result.JoinOk? ==>
                  && restarted.result == dropped.result
                  && restarted.effects == dropped.effects == []
                  && roomId in restarted.reg && roomId in dropped.reg
                  && SameRoom(restarted.reg[roomId], dropped.reg[roomId]))
  {
    assert RoomOk(reg[roomId]);
    DropAllLeaves(reg, roomId, drops, t);
  }

  // ---- and from there on nobody can tell ----

  datatype Observation = Observation(result: Result, effects: seq<Effect>)

  /** What calls on one room observe, up to and including the one that closes it. */
  function Observe(c: Config, reg: Registry, roomId: RoomId, ops: seq<(Op, int)>): seq<Observation> {
    if ops == [] || roomId !in reg then []
    else
      var o := Apply(c, reg, roomId, ops[0].0, ops[0].1);
      [Observation(o.result, o.effects)] + Observe(c, o.reg, roomId, ops[1..])
  }

  lemma SameRoomStep(c: Config, a: Registry, b: Registry, roomId: RoomId, op: Op, now: int)
    requires roomId in a && roomId in b && SameRoom(a[roomId], b[roomId])
    ensures var x := Apply(c, a, roomId, op, now);
            var y := Apply(c, b, roomId, op, now);
            && x.result == y.result && x.effects == y.effects
            && (roomId in x.reg <==> roomId in y.reg)
            && (roomId in x.reg ==> SameRoom(x.reg[roomId], y.reg[roomId]))
  {
    var r, s := a[roomId], b[roomId];
    assert r == s.(creator := r.creator);
    assert Metadata(r) == Metadata(s);
  }

  /** The refinement over whole runs: two registries, whatever else they hold,
      that agree on a room (up to the unread creator field) answer every later
      sequence of calls on it alike until it closes. */
  lemma {:induction false} RestartIsUnobservable(c: Config, a: Registry, b: Registry, roomId: RoomId,
                                                 ops: seq<(Op, int)>)
    requires roomId in a && roomId in b && SameRoom(a[roomId], b[roomId])
    ensures Observe(c, a, roomId, ops) == Observe(c, b, roomId, ops)
  {
    if ops != [] {
      var x := Apply(c, a, roomId, ops[0].0, ops[0].1);
      var y := Apply(c, b, roomId, ops[0].0, ops[0].1);
      SameRoomStep(c, a, b, roomId, ops[0].0, ops[0].1);
      if roomId in x.reg {
        RestartIsUnobservable(c, x.reg, y.reg, roomId, ops[1..]);
      }
    }
  }

  /** Restart plus recovery refines both sockets dropping, for good. */
  lemma RestartRefinesDoubleDrop(c: Config, reg: Registry, roomId: RoomId, drops: seq<PeerId>,
                                 peer: PeerId, link: Link, t: int, ops: seq<(Op, int)>)
    requires RegistryOk(reg) && roomId in reg && reg[roomId].state != Grace
    requires c.recovery && c.maxRooms > 0 && WithinAge(c, reg[roomId], t)
    requires AllOf(drops, reg[roomId].peers)
    ensures var token := Some(Genuine(Metadata(reg[roomId])));
            Observe(c, Join(c, map[], roomId, token, peer, link, t).reg, roomId, ops) ==
            Observe(c, Join(c, DropAll(reg, roomId, drops, t), roomId, token, peer, link, t).reg, roomId, ops)
  {
    var token := Some(Genuine(Metadata(reg[roomId])));
    RestartIsDoubleDrop(c, reg, roomId, drops, peer, link, t);
    RestartIsUnobservable(c, Join(c, map[], roomId, token, peer, link, t).reg,
                          Join(c, DropAll(reg, roomId, drops, t), roomId, token, peer, link, t).reg, roomId, ops);
  }

  // ---- closing ----

  function Heard(effects: seq<Effect>, link: Link): seq<ServerMessage> {
    if effects == [] then []
    else
      var last := effects[|effects| - 1];
      Heard(effects[..|effects| - 1], link) +
      (if last.Send? && last.to == link then [last.msg] else [])
  }

  lemma HeardAppend(effects: seq<Effect>, e: Effect, link: Link)
    ensures Heard(effects + [e], link) ==
            Heard(effects, link) + if e.Send? && e.to == link then [e.msg] else []
  {
    assert (effects + [e])[..|effects|] == effects;
  }

  predicate HasLink(peers: seq<Peer>, link: Link) {
    exists i :: 0 <= i < |peers| && peers[i].link == link
  }

  predicate LinksDistinct(peers: seq<Peer>) {
    forall i, j :: 0 <= i < j < |peers| ==> peers[i].link != peers[j].link
  }

  lemma HasLinkSplit(peers: seq<Peer>, link: Link)
    requires peers != []
    ensures HasLink(peers, link) <==> HasLink(peers[..|peers| - 1], link) || peers[|peers| - 1].link == link
  {
    if HasLink(peers, link) {
      var i :| 0 <= i < |peers| && peers[i].link == link;
      assert i < |peers| - 1 ==> peers[..|peers| - 1][i].link == link;
    }
    if HasLink(peers[..|peers| - 1], link) {
      var i :| 0 <= i < |peers| - 1 && peers[..|peers| - 1][i].link == link;
      assert peers[i].link == link;
    }
  }

  /** On closing, every remaining peer hears exactly one room-closed and is
      closed; nobody else hears anything. */
  lemma {:induction false} ClosingTellsEveryoneOnce(peers: seq<Peer>, reason: ClosedReason, link: Link)
    requires LinksDistinct(peers)
    ensures Heard(CloseEffects(peers, reason), link) == if HasLink(peers, link) then [RoomClosed(reason)] else []
    ensures Close(link) in CloseEffects(peers, reason) <==> HasLink(peers, link)
  {
    if peers != [] {
      var front := peers[..|peers| - 1];
      var last := peers[|peers| - 1].link;
      var told := CloseEffects(front, reason);
      ClosingTellsEveryoneOnce(front, reason, link);
      HasLinkSplit(peers, link);
      assert CloseEffects(peers, reason) == (told + [Send(last, RoomClosed(reason))]) + [Close(last)];
      HeardAppend(told, Send(last, RoomClosed(reason)), link);
      HeardAppend(told + [Send(last, RoomClosed(reason))], Close(last), link);
      assert HasLink(front, link) ==> last != link;
    }
  }
}
