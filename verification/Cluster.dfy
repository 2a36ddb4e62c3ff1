/** Several server processes, started and crashing at will, that share only a
    secret and a clock: what recovery tokens can and cannot do over every run.
    Assumptions: only issued tokens verify, peer ids are fresh, and the clock
    does not pass a pending timer. */
module Cluster {
  import opened Wrappers
  import opened Protocol
  import opened Rooms
  import opened RoomTheorems
  import opened Signaling
  import opened SignalingTheorems

  type ProcId = nat

  /** `issued`: every token any process ever signed. `genuine`: when a room
      really held two joined peers. `solo`: rooms rebuilt from a token that have
      not paired since. `used`: every peer id drawn so far. */
  datatype World = World(
    procs: map<ProcId, Server>,
    now: int,
    issued: set<RecoveryPayload>,
    genuine: set<(RoomId, int)>,
    solo: set<(ProcId, RoomId)>,
    used: set<PeerId>)

  datatype Step =
    | Start(proc: ProcId)
    | Crash(proc: ProcId)
    | Open(proc: ProcId, link: Link)
    | Message(proc: ProcId, link: Link, msg: ClientMessage, lim: Limits, peer: PeerId)
    | SocketClosing(proc: ProcId, link: Link)
    | SocketClosed(proc: ProcId, link: Link)
    | TimerFires(proc: ProcId, roomId: RoomId)
    | ClockAdvances(to: int)

  /** The registry call a message leads to, if any. */
  function Call(sv: Server, link: Link, msg: ClientMessage, lim: Limits, peer: PeerId): Option<(RoomId, Op)> {
    if link !in sv.socks || sv.socks[link].ready != Opened || !lim.message then None
    else
      var s := sv.socks[link];
      match msg
      case CreateRequest(roomId, invite, grace) =>
        if s.peer.Some? || !lim.request then None else Some((roomId, OpCreate(invite, grace, peer, link)))
      case JoinRequest(roomId, token) =>
        if s.peer.Some? || !lim.request then None else Some((roomId, OpJoin(token, peer, link)))
      case LeaveRequest =>
        if s.room.None? || s.peer.None? then None else Some((s.room.value, OpLeave(s.peer.value)))
      case _ => None
  }

  predicate Enabled(c: Config, w: World, step: Step) {
    match step
    case Start(proc) => proc !in w.procs
    case ClockAdvances(to) =>
      w.now <= to &&
      forall p, k :: p in w.procs && k in w.procs[p].reg && w.procs[p].reg[k].deadline.Some? ==>
        to <= w.procs[p].reg[k].deadline.value
    case Message(proc, link, msg, lim, peer) =>
      && proc in w.procs && peer !in w.used
      && (msg.JoinRequest? && msg.token.Some? && msg.token.value.Genuine? ==> msg.token.value.payload in w.issued)
    case TimerFires(proc, roomId) =>
      && proc in w.procs && roomId in w.procs[proc].reg
      && w.procs[proc].reg[roomId].deadline == Some(w.now)
    case Crash(_) | Open(_, _) | SocketClosing(_, _) | SocketClosed(_, _) => step.proc in w.procs
  }

  function TokenOf(r: Result): Option<RecoveryPayload> {
    if r.CreateOk? || r.JoinOk? then r.token else None
  }

  /** The call brought a second peer into the room. */
  predicate Pairs(o: Outcome, roomId: RoomId) {
    o.result.JoinOk? && roomId in o.reg && |o.reg[roomId].peers| == 2
  }

  function GenuineAfter(genuine: set<(RoomId, int)>, o: Outcome, roomId: RoomId, now: int): set<(RoomId, int)> {
    if Pairs(o, roomId) then genuine + {(roomId, now)} else genuine
  }

  /** Bookkeeping of one registry call at process `proc`. */
  function Record(c: Config, w: World, proc: ProcId, sv1: Server, roomId: RoomId, op: Op): World
    requires proc in w.procs
  {
    var reg := w.procs[proc].reg;
    var o := Apply(c, reg, roomId, op, w.now);
    var here := {(proc, roomId)};
    w.(procs := w.procs[proc := sv1],
       issued := w.issued + (if TokenOf(o.result).Some? then {TokenOf(o.result).value} else {}),
       genuine := GenuineAfter(w.genuine, o, roomId, w.now),
       solo := if roomId !in o.reg || Pairs(o, roomId) then w.solo - here
               else if roomId !in reg && op.OpJoin? then w.solo + here else w.solo)
  }

  function Next(c: Config, w: World, step: Step): World
    requires Enabled(c, w, step)
  {
    match step
    case Start(proc) => w.(procs := w.procs[proc := Server(map[], map[])])
    case Crash(proc) => w.(procs := w.procs - {proc}, solo := set x | x in w.solo && x.0 != proc)
    case Open(proc, link) => w.(procs := w.procs[proc := Connect(w.procs[proc], link)])
    case SocketClosing(proc, link) => w.(procs := w.procs[proc := StartClosing(w.procs[proc], link)])
    case Message(proc, link, msg, lim, peer) =>
      var sv := w.procs[proc];
      var sv1 := OnMessage(c, sv, link, msg, lim, peer, w.now);
      var call := Call(sv, link, msg, lim, peer);
      var w1 := if call.None? then w.(procs := w.procs[proc := sv1])
                else Record(c, w, proc, sv1, call.value.0, call.value.1);
      w1.(used := w.used + {peer})
    case SocketClosed(proc, link) =>
      var sv := w.procs[proc];
      var sv1 := OnClose(sv, link, w.now);
      if link in sv.socks && sv.socks[link].ready != Closed && sv.socks[link].room.Some? && sv.socks[link].peer.Some? then
        Record(c, w, proc, sv1, sv.socks[link].room.value, OpDisconnect(sv.socks[link].peer.value))
      else w.(procs := w.procs[proc := sv1])
    case TimerFires(proc, roomId) =>
      Record(c, w, proc, OnExpire(w.procs[proc], roomId), roomId, OpExpire)
    case ClockAdvances(to) => w.(now := to)
  }

  // ---- the invariant ----

  predicate Bounded(inviteWindowMs: int, graceDurationMs: int) {
    && INVITE_WINDOW_MIN_MS <= inviteWindowMs <= INVITE_WINDOW_MAX_MS
    && GRACE_MIN_MS <= graceDurationMs <= GRACE_MAX_MS
  }

  predicate TokenFacts(genuine: set<(RoomId, int)>, p: RecoveryPayload) {
    && Bounded(p.inviteWindowMs, p.graceDurationMs)
    && (p.pairedAt.Some? ==> (p.roomId, p.pairedAt.value) in genuine)
  }

  /** Windows stay in bounds, a pairing time is the time of a real pairing, and
      no countdown is overdue. */
  predicate RoomFacts(genuine: set<(RoomId, int)>, now: int, room: Room) {
    && TokenFacts(genuine, Metadata(room))
    && (room.deadline.Some? ==> now <= room.deadline.value)
  }

  predicate SoloFacts(c: Config, room: Room) {
    && room.state != Paired && room.deadline.Some?
    && (room.pairedAt.Some? ==> room.deadline.value <= room.pairedAt.value + c.maxAgeMs + room.graceDurationMs)
  }

  ghost predicate PeersUsed(sv: Server, used: set<PeerId>) {
    forall l :: l in sv.socks && sv.socks[l].peer.Some? ==> sv.socks[l].peer.value in used
  }

  ghost predicate ProcOk(c: Config, w: World, sv: Server) {
    && ServerOk(c, sv)
    && (forall k :: k in sv.reg ==> RoomFacts(w.genuine, w.now, sv.reg[k]))
    && (forall k :: k in sv.reg && c.recovery ==> Metadata(sv.reg[k]) in w.issued)
    && PeersUsed(sv, w.used)
  }

  ghost predicate WorldOk(c: Config, w: World) {
    && (forall p :: p in w.procs ==> ProcOk(c, w, w.procs[p]))
    && (forall t :: t in w.issued ==> TokenFacts(w.genuine, t))
    && (forall x :: x in w.solo ==>
          x.0 in w.procs && x.1 in w.procs[x.0].reg && SoloFacts(c, w.procs[x.0].reg[x.1]))
  }

  // ---- preservation ----

  /** A message changes the registry by exactly the call it leads to. */
  lemma MessageCalls(c: Config, sv: Server, link: Link, msg: ClientMessage, lim: Limits, peer: PeerId, now: int)
    ensures var call := Call(sv, link, msg, lim, peer);
            OnMessage(c, sv, link, msg, lim, peer, now).reg ==
            if call.None? then sv.reg else Apply(c, sv.reg, call.value.0, call.value.1, now).reg
  {
  }

  /** Peer ids in sockets come from before or are the one just drawn. */
  lemma {:induction false} DeliverKeepsPeers(socks: map<Link, Socket>, effects: seq<Effect>, l: Link)
    requires l in socks
    ensures Deliver(socks, effects)[l].peer == socks[l].peer
  {
    if effects != [] {
      DeliverKeepsPeers(socks, effects[..|effects| - 1], l);
    }
  }

  lemma MessagePeers(c: Config, sv: Server, link: Link, msg: ClientMessage, lim: Limits, peer: PeerId, now: int, l: Link)
    requires l in OnMessage(c, sv, link, msg, lim, peer, now).socks
    ensures l in sv.socks
    ensures var p := OnMessage(c, sv, link, msg, lim, peer, now).socks[l].peer;
            p == None || p == Some(peer) || p == sv.socks[l].peer
  {
    match msg {
      case CreateRequest(_, _, _) => RequestPeers(c, sv, link, msg, lim, peer, now, l);
      case JoinRequest(_, _) => RequestPeers(c, sv, link, msg, lim, peer, now, l);
      case SignalRequest(roomId, to, payload) =>
        if link in sv.socks && sv.socks[link].peer.Some? {
          DeliverKeepsPeers(sv.socks, Relay(sv.reg, roomId, sv.socks[link].peer.value, to, payload), l);
        }
      case LeaveRequest =>
        if link in sv.socks && sv.socks[link].room.Some? && sv.socks[link].peer.Some? {
          var s := sv.socks[link];
          DeliverKeepsPeers(Forget(sv, link).socks, Leave(sv.reg, s.room.value, s.peer.value).effects, l);
        }
      case Ping =>
    }
  }

  lemma RequestPeers(c: Config, sv: Server, link: Link, msg: ClientMessage, lim: Limits, peer: PeerId, now: int, l: Link)
    requires msg.CreateRequest? || msg.JoinRequest?
    requires l in OnMessage(c, sv, link, msg, lim, peer, now).socks
    ensures l in sv.socks
    ensures OnMessage(c, sv, link, msg, lim, peer, now).socks[l].peer in {Some(peer), sv.socks[l].peer}
  {
    if msg.CreateRequest? {
      DeliverKeepsPeers(sv.socks, Create(c, sv.reg, msg.roomId, msg.invite, msg.grace, peer, link, now).effects, l);
    } else {
      DeliverKeepsPeers(sv.socks, Join(c, sv.reg, msg.roomId, msg.token, peer, link, now).effects, l);
    }
  }

  lemma ClosePeers(sv: Server, link: Link, now: int, l: Link)
    requires l in OnClose(sv, link, now).socks
    ensures l in sv.socks
    ensures OnClose(sv, link, now).socks[l].peer in {None, sv.socks[l].peer}
  {
    if link in sv.socks && sv.socks[link].room.Some? && sv.socks[link].peer.Some? {
      var s := sv.socks[link];
      DeliverKeepsPeers(sv.socks[link := s.(ready := Closed)], Disconnect(sv.reg, s.room.value, s.peer.value, now).effects, l);
    }
  }

  /** One registry call: the named room keeps its facts, and so does the token
      it issues. */
  lemma JoinKeepsFacts(c: Config, genuine: set<(RoomId, int)>, reg: Registry, roomId: RoomId,
                       token: Option<Presented>, peer: PeerId, link: Link, now: int)
    requires RegistryOk(reg) && (roomId in reg ==> RoomFacts(genuine, now, reg[roomId]))
    requires token.Some? && token.value.Genuine? ==> TokenFacts(genuine, token.value.payload)
    ensures var o := Join(c, reg, roomId, token, peer, link, now);
            && (roomId in o.reg ==> RoomFacts(GenuineAfter(genuine, o, roomId, now), now, o.reg[roomId]))
            && (o.result.JoinOk? ==> roomId in o.reg && TokenOf(o.result) == IssueToken(c, o.reg[roomId]))
  {
    var o := Join(c, reg, roomId, token, peer, link, now);
    if o.result.JoinOk? {
      JoinRegistry(c, reg, roomId, token, peer, link, now);
    }
  }

  lemma CallKeepsFacts(c: Config, genuine: set<(RoomId, int)>, reg: Registry, roomId: RoomId, op: Op, now: int)
    requires RegistryOk(reg) && (roomId in reg ==> RoomFacts(genuine, now, reg[roomId]))
    requires op.OpJoin? && op.token.Some? && op.token.value.Genuine? ==> TokenFacts(genuine, op.token.value.payload)
    ensures var o := Apply(c, reg, roomId, op, now);
            var genuine1 := GenuineAfter(genuine, o, roomId, now);
            && (roomId in o.reg ==> RoomFacts(genuine1, now, o.reg[roomId]))
            && (TokenOf(o.result).Some? ==> TokenFacts(genuine1, TokenOf(o.result).value))
  {
    if op.OpJoin? {
      JoinKeepsFacts(c, genuine, reg, roomId, op.token, op.peer, op.link, now);
    }
  }

  /** Whatever a call does to a room, its current metadata has been signed. */
  lemma CallIssues(c: Config, reg: Registry, roomId: RoomId, op: Op, now: int)
    requires c.recovery && RegistryOk(reg) && roomId in Apply(c, reg, roomId, op, now).reg
    ensures var o := Apply(c, reg, roomId, op, now);
            || TokenOf(o.result) == Some(Metadata(o.reg[roomId]))
            || (roomId in reg && Metadata(o.reg[roomId]) == Metadata(reg[roomId]))
  {
    if op.OpJoin? && Apply(c, reg, roomId, op, now).result.JoinOk? {
      JoinRegistry(c, reg, roomId, op.token, op.peer, op.link, now);
    }
  }

  /** A room rebuilt from a token gets a countdown within the age bound, and
      only a pairing takes it away. */
  lemma CallKeepsSolo(c: Config, reg: Registry, roomId: RoomId, op: Op, now: int)
    requires RegistryOk(reg)
    requires var o := Apply(c, reg, roomId, op, now); roomId in o.reg && !Pairs(o, roomId)
    requires (roomId in reg && SoloFacts(c, reg[roomId])) || (roomId !in reg && op.OpJoin?)
    ensures SoloFacts(c, Apply(c, reg, roomId, op, now).reg[roomId])
  {
    if roomId in reg {
      CountdownNeverMoves(c, reg, roomId, op, now, roomId);
      assert RoomOk(reg[roomId]);
    }
  }

  lemma FactsGrow(genuine: set<(RoomId, int)>, genuine1: set<(RoomId, int)>, now: int)
    requires genuine <= genuine1
    ensures forall p :: TokenFacts(genuine, p) ==> TokenFacts(genuine1, p)
    ensures forall r :: RoomFacts(genuine, now, r) ==> RoomFacts(genuine1, now, r)
  {
  }

  /** Bookkeeping of a call keeps the world sound. */
  lemma RecordKeeps(c: Config, w: World, proc: ProcId, sv1: Server, roomId: RoomId, op: Op, used: set<PeerId>)
    requires WorldOk(c, w) && proc in w.procs && FreshFor(w.procs[proc].reg, roomId, op)
    requires op.OpJoin? && op.token.Some? && op.token.value.Genuine? ==> op.token.value.payload in w.issued
    requires ServerOk(c, sv1) && sv1.reg == Apply(c, w.procs[proc].reg, roomId, op, w.now).reg
    requires w.used <= used && PeersUsed(sv1, used)
    ensures WorldOk(c, Record(c, w, proc, sv1, roomId, op).(used := used))
  {
    var reg := w.procs[proc].reg;
    var o := Apply(c, reg, roomId, op, w.now);
    var w1 := Record(c, w, proc, sv1, roomId, op).(used := used);
    assert ProcOk(c, w, w.procs[proc]);
    FactsGrow(w.genuine, w1.genuine, w.now);
    CallKeepsFacts(c, w.genuine, reg, roomId, op, w.now);
    ApplyIsLocal(c, reg, roomId, op, w.now);
    forall p | p in w1.procs
      ensures ProcOk(c, w1, w1.procs[p])
    {
      assert p in w.procs && ProcOk(c, w, w.procs[p]);
      if p == proc {
        forall k | k in sv1.reg
          ensures RoomFacts(w1.genuine, w.now, sv1.reg[k])
          ensures c.recovery ==> Metadata(sv1.reg[k]) in w1.issued
        {
          if k != roomId {
            assert k in sv1.reg - {roomId} && (sv1.reg - {roomId})[k] == (reg - {roomId})[k];
          } else if c.recovery {
            CallIssues(c, reg, roomId, op, w.now);
          }
        }
      }
    }
    RecordKeepsSolo(c, w, proc, sv1, roomId, op);
  }

  lemma RecordKeepsSolo(c: Config, w: World, proc: ProcId, sv1: Server, roomId: RoomId, op: Op)
    requires WorldOk(c, w) && proc in w.procs && sv1.reg == Apply(c, w.procs[proc].reg, roomId, op, w.now).reg
    ensures var w1 := Record(c, w, proc, sv1, roomId, op);
            forall x :: x in w1.solo ==>
              x.0 in w1.procs && x.1 in w1.procs[x.0].reg && SoloFacts(c, w1.procs[x.0].reg[x.1])
  {
    var w1 := Record(c, w, proc, sv1, roomId, op);
    forall x | x in w1.solo
      ensures x.0 in w1.procs && x.1 in w1.procs[x.0].reg && SoloFacts(c, w1.procs[x.0].reg[x.1])
    {
      if x == (proc, roomId) {
        NamedRoomKeepsSolo(c, w, proc, sv1, roomId, op);
      } else {
        OtherRoomKeepsSolo(c, w, proc, sv1, roomId, op, x);
      }
    }
  }

  lemma NamedRoomKeepsSolo(c: Config, w: World, proc: ProcId, sv1: Server, roomId: RoomId, op: Op)
    requires WorldOk(c, w) && proc in w.procs && sv1.reg == Apply(c, w.procs[proc].reg, roomId, op, w.now).reg
    requires (proc, roomId) in Record(c, w, proc, sv1, roomId, op).solo
    ensures roomId in sv1.reg && SoloFacts(c, sv1.reg[roomId])
  {
    assert ProcOk(c, w, w.procs[proc]);
    CallKeepsSolo(c, w.procs[proc].reg, roomId, op, w.now);
  }

  lemma OtherRoomKeepsSolo(c: Config, w: World, proc: ProcId, sv1: Server, roomId: RoomId, op: Op, x: (ProcId, RoomId))
    requires WorldOk(c, w) && proc in w.procs && sv1.reg == Apply(c, w.procs[proc].reg, roomId, op, w.now).reg
    requires x in Record(c, w, proc, sv1, roomId, op).solo && x != (proc, roomId)
    ensures var w1 := Record(c, w, proc, sv1, roomId, op);
            x.0 in w1.procs && x.1 in w1.procs[x.0].reg && SoloFacts(c, w1.procs[x.0].reg[x.1])
  {
    assert x in w.solo;
    if x.0 == proc {
      var reg := w.procs[proc].reg;
      ApplyIsLocal(c, reg, roomId, op, w.now);
      assert x.1 in reg - {roomId} && (sv1.reg - {roomId})[x.1] == (reg - {roomId})[x.1];
    }
  }

  /** Replacing a process's sockets only. */
  lemma SocketsKeep(c: Config, w: World, proc: ProcId, sv1: Server, used: set<PeerId>)
    requires WorldOk(c, w) && proc in w.procs && sv1.reg == w.procs[proc].reg
    requires ServerOk(c, sv1) && w.used <= used && PeersUsed(sv1, used)
    ensures WorldOk(c, w.(procs := w.procs[proc := sv1], used := used))
  {
    var w1 := w.(procs := w.procs[proc := sv1], used := used);
    forall p | p in w1.procs
      ensures ProcOk(c, w1, w1.procs[p])
    {
      assert ProcOk(c, w, w.procs[p]);
    }
  }

  lemma MessageStepKeeps(c: Config, w: World, step: Step)
    requires WorldOk(c, w) && Enabled(c, w, step) && step.Message?
    ensures WorldOk(c, Next(c, w, step))
  {
    var Message(proc, link, msg, lim, peer) := step;
    var sv := w.procs[proc];
    assert ProcOk(c, w, sv);
    var sv1 := OnMessage(c, sv, link, msg, lim, peer, w.now);
    assert Fresh(sv, peer);
    MessageKeeps(c, sv, link, msg, lim, peer, w.now);
    MessageCalls(c, sv, link, msg, lim, peer, w.now);
    forall l | l in sv1.socks && sv1.socks[l].peer.Some?
      ensures sv1.socks[l].peer.value in w.used + {peer}
    {
      MessagePeers(c, sv, link, msg, lim, peer, w.now, l);
    }
    var call := Call(sv, link, msg, lim, peer);
    if call.Some? {
      if call.value.0 in sv.reg {
        FreshInRooms(c, sv, peer, call.value.0);
      }
      RecordKeeps(c, w, proc, sv1, call.value.0, call.value.1, w.used + {peer});
    } else {
      SocketsKeep(c, w, proc, sv1, w.used + {peer});
    }
  }

  lemma ClosedStepKeeps(c: Config, w: World, step: Step)
    requires WorldOk(c, w) && Enabled(c, w, step) && step.SocketClosed?
    ensures WorldOk(c, Next(c, w, step))
  {
    var SocketClosed(proc, link) := step;
    var sv := w.procs[proc];
    assert ProcOk(c, w, sv);
    var sv1 := OnClose(sv, link, w.now);
    CloseKeeps(c, sv, link, w.now);
    forall l | l in sv1.socks && sv1.socks[l].peer.Some?
      ensures sv1.socks[l].peer.value in w.used
    {
      ClosePeers(sv, link, w.now, l);
    }
    if link in sv.socks && sv.socks[link].ready != Closed && sv.socks[link].room.Some? && sv.socks[link].peer.Some? {
      RecordKeeps(c, w, proc, sv1, sv.socks[link].room.value, OpDisconnect(sv.socks[link].peer.value), w.used);
    } else {
      SocketsKeep(c, w, proc, sv1, w.used);
    }
  }

  lemma TimerStepKeeps(c: Config, w: World, step: Step)
    requires WorldOk(c, w) && Enabled(c, w, step) && step.TimerFires?
    ensures WorldOk(c, Next(c, w, step))
  {
    var TimerFires(proc, roomId) := step;
    var sv := w.procs[proc];
    assert ProcOk(c, w, sv);
    ExpireKeeps(c, sv, roomId);
    forall l | l in sv.socks
      ensures OnExpire(sv, roomId).socks[l].peer == sv.socks[l].peer
    {
      DeliverKeepsPeers(sv.socks, Expire(sv.reg, roomId).effects, l);
    }
    RecordKeeps(c, w, proc, OnExpire(sv, roomId), roomId, OpExpire, w.used);
  }

  lemma SocketStepKeeps(c: Config, w: World, step: Step)
    requires WorldOk(c, w) && Enabled(c, w, step) && (step.Open? || step.SocketClosing?)
    ensures WorldOk(c, Next(c, w, step))
  {
    var sv := w.procs[step.proc];
    assert ProcOk(c, w, sv);
    if step.Open? {
      ConnectKeeps(c, sv, step.link);
      SocketsKeep(c, w, step.proc, Connect(sv, step.link), w.used);
    } else {
      StartClosingKeeps(c, sv, step.link);
      SocketsKeep(c, w, step.proc, StartClosing(sv, step.link), w.used);
    }
  }

  lemma ProcessStepKeeps(c: Config, w: World, step: Step)
    requires WorldOk(c, w) && Enabled(c, w, step) && (step.Start? || step.Crash? || step.ClockAdvances?)
    ensures WorldOk(c, Next(c, w, step))
  {
    var w1 := Next(c, w, step);
    forall p | p in w1.procs
      ensures ProcOk(c, w1, w1.procs[p])
    {
      assert p in w.procs ==> ProcOk(c, w, w.procs[p]);
    }
  }

  /** Every step of every process keeps the invariant. */
  lemma NextKeepsOk(c: Config, w: World, step: Step)
    requires WorldOk(c, w) && Enabled(c, w, step)
    ensures WorldOk(c, Next(c, w, step))
  {
    match step {
      case Message(_, _, _, _, _) => MessageStepKeeps(c, w, step);
      case SocketClosed(_, _) => ClosedStepKeeps(c, w, step);
      case TimerFires(_, _) => TimerStepKeeps(c, w, step);
      case Open(_, _) | SocketClosing(_, _) => SocketStepKeeps(c, w, step);
      case Start(_) | Crash(_) | ClockAdvances(_) => ProcessStepKeeps(c, w, step);
    }
  }

  // ---- whole runs ----

  function Init(now: int): World {
    World(map[], now, {}, {}, {}, {})
  }

  predicate IsRun(c: Config, w: World, steps: seq<Step>)
    decreases |steps|
  {
    steps == [] || (Enabled(c, w, steps[0]) && IsRun(c, Next(c, w, steps[0]), steps[1..]))
  }

  function Run(c: Config, w: World, steps: seq<Step>): World
    requires IsRun(c, w, steps)
    decreases |steps|
  {
    if steps == [] then w else Run(c, Next(c, w, steps[0]), steps[1..])
  }

  lemma {:induction false} RunKeepsOk(c: Config, w: World, steps: seq<Step>)
    requires WorldOk(c, w) && IsRun(c, w, steps)
    ensures WorldOk(c, Run(c, w, steps))
    decreases |steps|
  {
    if steps != [] {
      NextKeepsOk(c, w, steps[0]);
      RunKeepsOk(c, Next(c, w, steps[0]), steps[1..]);
    }
  }

  /** Bounded life across restarts.  In every reachable state, however many
      processes crashed and however often the room was rebuilt by one peer
      alone: a room that never paired is gone by the end of its invite window;
      a room rebuilt from a token that has not paired since is gone by the age
      bound plus one grace period after the last real pairing. */
  lemma BoundedLife(c: Config, start: int, steps: seq<Step>, proc: ProcId, k: RoomId)
    requires IsRun(c, Init(start), steps)
    requires var w := Run(c, Init(start), steps); proc in w.procs && k in w.procs[proc].reg
    ensures var w := Run(c, Init(start), steps);
            var room := w.procs[proc].reg[k];
            && (room.pairedAt.None? ==> w.now <= room.createdAt + room.inviteWindowMs)
            && (room.pairedAt.Some? ==> (k, room.pairedAt.value) in w.genuine)
            && ((proc, k) in w.solo && room.pairedAt.Some? ==>
                  w.now <= room.pairedAt.value + c.maxAgeMs + room.graceDurationMs)
  {
    var w := Run(c, Init(start), steps);
    RunKeepsOk(c, Init(start), steps);
    assert ProcOk(c, w, w.procs[proc]);
    assert RoomOk(w.procs[proc].reg[k]);
  }

  /** Tokens stay fresh and bounded in every reachable state: a peer whose
      socket is open holds a token for its room as it is now, exactly that token
      was issued, and every room anywhere, rebuilt or not, keeps its windows in
      bounds. */
  lemma TokensFreshAndBounded(c: Config, start: int, steps: seq<Step>, proc: ProcId, k: RoomId, i: nat)
    requires IsRun(c, Init(start), steps) && c.recovery
    requires var w := Run(c, Init(start), steps);
             proc in w.procs && k in w.procs[proc].reg && i < |w.procs[proc].reg[k].peers|
    ensures var sv := Run(c, Init(start), steps).procs[proc];
            var p := sv.reg[k].peers[i];
            && Bounded(sv.reg[k].inviteWindowMs, sv.reg[k].graceDurationMs)
            && p.link in sv.socks
            && (sv.socks[p.link].ready == Opened ==>
                  && LatestToken(sv.socks[p.link].inbox) == Some(Metadata(sv.reg[k]))
                  && Metadata(sv.reg[k]) in Run(c, Init(start), steps).issued
                  && View(sv.socks[p.link].inbox) == Others(sv.reg[k], p.id))
  {
    var w := Run(c, Init(start), steps);
    RunKeepsOk(c, Init(start), steps);
    assert ProcOk(c, w, w.procs[proc]);
    assert PeerOk(c, w.procs[proc].reg[k], w.procs[proc].reg[k].peers[i], w.procs[proc].socks);
  }

  // ---- what one step does to a registry ----

  /** The registry call a step leads to, if any, and the process it is made at. */
  function StepCall(w: World, step: Step): Option<(ProcId, RoomId, Op)> {
    match step
    case Message(proc, link, msg, lim, peer) =>
      if proc !in w.procs then None
      else
        var call := Call(w.procs[proc], link, msg, lim, peer);
        if call.None? then None else Some((proc, call.value.0, call.value.1))
    case SocketClosed(proc, link) =>
      if proc !in w.procs || link !in w.procs[proc].socks then None
      else
        var s := w.procs[proc].socks[link];
        if s.ready == Closed || s.room.None? || s.peer.None? then None
        else Some((proc, s.room.value, OpDisconnect(s.peer.value)))
    case TimerFires(proc, roomId) => Some((proc, roomId, OpExpire))
    case _ => None
  }

  /** A step makes at most that one call; a process that starts has no rooms. */
  lemma StepRegistry(c: Config, w: World, step: Step, p: ProcId)
    requires Enabled(c, w, step) && p in Next(c, w, step).procs
    ensures p !in w.procs ==> Next(c, w, step).procs[p].reg == map[]
    ensures p in w.procs ==>
              var call := StepCall(w, step);
              Next(c, w, step).procs[p].reg ==
              if call.Some? && call.value.0 == p then Apply(c, w.procs[p].reg, call.value.1, call.value.2, w.now).reg
              else w.procs[p].reg
  {
    if step.Message? {
      MessageCalls(c, w.procs[step.proc], step.link, step.msg, step.lim, step.peer, w.now);
    }
  }

  // ---- the cap ----

  predicate CapOk(c: Config, w: World) {
    forall p :: p in w.procs ==> |w.procs[p].reg| <= Max(c.maxRooms, 0)
  }

  lemma NextKeepsCap(c: Config, w: World, step: Step)
    requires CapOk(c, w) && Enabled(c, w, step)
    ensures CapOk(c, Next(c, w, step))
  {
    forall p | p in Next(c, w, step).procs
      ensures |Next(c, w, step).procs[p].reg| <= Max(c.maxRooms, 0)
    {
      StepRegistry(c, w, step, p);
      var call := StepCall(w, step);
      if p in w.procs && call.Some? && call.value.0 == p {
        RoomCapHolds(c, w.procs[p].reg, call.value.1, call.value.2, w.now);
      }
    }
  }

  lemma {:induction false} RunKeepsCap(c: Config, w: World, steps: seq<Step>)
    requires CapOk(c, w) && IsRun(c, w, steps)
    ensures CapOk(c, Run(c, w, steps))
    decreases |steps|
  {
    if steps != [] {
      NextKeepsCap(c, w, steps[0]);
      RunKeepsCap(c, Next(c, w, steps[0]), steps[1..]);
    }
  }

  /** In every reachable state no process holds more rooms than the cap allows,
      whatever was created, recovered, crashed and started again. */
  lemma CapInEveryState(c: Config, start: int, steps: seq<Step>)
    requires IsRun(c, Init(start), steps)
    ensures CapOk(c, Run(c, Init(start), steps))
  {
    RunKeepsCap(c, Init(start), steps);
  }

  // ---- countdowns ----

  predicate IsCounting(w: World, p: ProcId, k: RoomId) {
    p in w.procs && k in w.procs[p].reg && w.procs[p].reg[k].deadline.Some?
  }

  /** All along the run the room stays registered there and is not paired. */
  predicate StaysCounting(c: Config, w: World, steps: seq<Step>, p: ProcId, k: RoomId)
    requires IsRun(c, w, steps)
    decreases |steps|
  {
    && IsCounting(w, p, k)
    && (steps == [] || StaysCounting(c, Next(c, w, steps[0]), steps[1..], p, k))
  }

  predicate SameCountdown(a: Room, b: Room) {
    b.deadline == a.deadline && b.state == a.state && b.pairedAt == a.pairedAt
  }

  lemma StepKeepsCountdown(c: Config, w: World, step: Step, p: ProcId, k: RoomId)
    requires WorldOk(c, w) && Enabled(c, w, step) && IsCounting(w, p, k) && IsCounting(Next(c, w, step), p, k)
    requires RegistryOk(Next(c, w, step).procs[p].reg)
    ensures SameCountdown(w.procs[p].reg[k], Next(c, w, step).procs[p].reg[k])
  {
    StepRegistry(c, w, step, p);
    assert ProcOk(c, w, w.procs[p]);
    var call := StepCall(w, step);
    if call.Some? && call.value.0 == p {
      CountdownNeverMoves(c, w.procs[p].reg, call.value.1, call.value.2, w.now, k);
      assert RoomOk(Next(c, w, step).procs[p].reg[k]);
    }
  }

  lemma {:induction false} RunKeepsCountdown(c: Config, w: World, steps: seq<Step>, p: ProcId, k: RoomId)
    requires WorldOk(c, w) && IsRun(c, w, steps) && StaysCounting(c, w, steps, p, k)
    ensures IsCounting(Run(c, w, steps), p, k)
    ensures SameCountdown(w.procs[p].reg[k], Run(c, w, steps).procs[p].reg[k])
    decreases |steps|
  {
    if steps != [] {
      var w1 := Next(c, w, steps[0]);
      NextKeepsOk(c, w, steps[0]);
      assert IsCounting(w1, p, k);
      assert ProcOk(c, w1, w1.procs[p]);
      StepKeepsCountdown(c, w, steps[0], p, k);
      RunKeepsCountdown(c, w1, steps[1..], p, k);
    }
  }

  /** Countdowns over whole runs: as long as a room stays registered and unpaired,
      through drops, solo rejoins and everything else, its deadline, state and
      pairing time are what they were; and a room that never paired, rebuilt or not,
      always ends with the invite window that began when it was created. */
  lemma CountdownNeverMovesOverRuns(c: Config, start: int, before: seq<Step>, steps: seq<Step>, p: ProcId, k: RoomId)
    requires IsRun(c, Init(start), before)
    requires var w := Run(c, Init(start), before); IsRun(c, w, steps) && StaysCounting(c, w, steps, p, k)
    ensures var w := Run(c, Init(start), before);
            var r := Run(c, w, steps);
            && IsCounting(w, p, k) && IsCounting(r, p, k)
            && var room := r.procs[p].reg[k];
               && SameCountdown(w.procs[p].reg[k], room)
               && (room.state == Waiting ==> room.deadline == Some(room.createdAt + room.inviteWindowMs))
  {
    var w := Run(c, Init(start), before);
    RunKeepsOk(c, Init(start), before);
    RunKeepsCountdown(c, w, steps, p, k);
    RunKeepsOk(c, w, steps);
    assert ProcOk(c, Run(c, w, steps), Run(c, w, steps).procs[p]);
    assert RoomOk(Run(c, w, steps).procs[p].reg[k]);
  }

  // ---- restart, from every reachable state ----

  /** In every reachable state, for every waiting or paired room and the latest token
      of any peer whose socket is open: the token verifies, and a fresh registry that
      is given it answers the join, and every later call on the room, as the old one
      does after both sockets dropped; it accepts exactly within the age bound. */
  lemma RestartOfReachableRoom(c: Config, start: int, steps: seq<Step>, proc: ProcId, k: RoomId, i: nat,
                               drops: seq<PeerId>, peer: PeerId, link: Link, t: int, ops: seq<(Op, int)>)
    requires IsRun(c, Init(start), steps) && c.recovery && c.maxRooms > 0
    requires var w := Run(c, Init(start), steps);
             && proc in w.procs && k in w.procs[proc].reg && w.procs[proc].reg[k].state != Grace
             && i < |w.procs[proc].reg[k].peers| && AllOf(drops, w.procs[proc].reg[k].peers)
             && w.procs[proc].reg[k].peers[i].link in w.procs[proc].socks
             && w.procs[proc].socks[w.procs[proc].reg[k].peers[i].link].ready == Opened
    ensures var w := Run(c, Init(start), steps);
            var reg := w.procs[proc].reg;
            var latest := LatestToken(w.procs[proc].socks[reg[k].peers[i].link].inbox);
            && latest.Some? && latest.value in w.issued
            && var token := Some(Genuine(latest.value));
               var restarted := Join(c, map[], k, token, peer, link, t);
               var dropped := Join(c, DropAll(reg, k, drops, t), k, token, peer, link, t);
               && (restarted.result.JoinOk? <==> WithinAge(c, reg[k], t))
               && (restarted.result.JoinOk? ==>
                     && restarted.result == dropped.result && restarted.effects == dropped.effects == []
                     && Observe(c, restarted.reg, k, ops) == Observe(c, dropped.reg, k, ops))
  {
    var w := Run(c, Init(start), steps);
    var reg := w.procs[proc].reg;
    TokensFreshAndBounded(c, start, steps, proc, k, i);
    RunKeepsOk(c, Init(start), steps);
    assert ProcOk(c, w, w.procs[proc]);
    RestartIsDoubleDrop(c, reg, k, drops, peer, link, t);
    if WithinAge(c, reg[k], t) {
      RestartRefinesDoubleDrop(c, reg, k, drops, peer, link, t, ops);
    }
  }
}
