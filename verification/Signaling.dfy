/** One server process: its registry and, per socket, what the handler's
    closure remembers.  Rate limiters answer through parameters (their own
    behaviour is module RateLimit); oversized or malformed messages, idle
    timeouts and network loss all appear as a socket that starts closing. */
module Signaling {
  import opened Wrappers
  import opened Protocol
  import opened Rooms

  datatype Ready = Opened | Closing | Closed

  /** `inbox` is every message the socket accepted, in order. */
  datatype Socket = Socket(ready: Ready, room: Option<RoomId>, peer: Option<PeerId>, inbox: seq<ServerMessage>)

  datatype Server = Server(reg: Registry, socks: map<Link, Socket>)

  datatype ClientMessage =
    | CreateRequest(roomId: RoomId, invite: Millis, grace: Millis)
    | JoinRequest(roomId: RoomId, token: Option<Presented>)
    | SignalRequest(roomId: RoomId, to: PeerId, payload: string)
    | LeaveRequest
    | Ping

  /** The verdicts of the limiters consulted for one message. */
  datatype Limits = Limits(message: bool, request: bool)

  /** A send is dropped unless the socket is open; close starts the closing handshake. */
  function Perform(socks: map<Link, Socket>, e: Effect): map<Link, Socket> {
    match e
    case Send(to, msg) =>
      if to in socks && socks[to].ready == Opened then
        socks[to := socks[to].(inbox := socks[to].inbox + [msg])]
      else socks
    case Close(link) =>
      if link in socks && socks[link].ready == Opened then
        socks[link := socks[link].(ready := Closing)]
      else socks
  }

  function Deliver(socks: map<Link, Socket>, effects: seq<Effect>): (socks1: map<Link, Socket>)
    ensures socks1.Keys == socks.Keys
  {
    if effects == [] then socks
    else Perform(Deliver(socks, effects[..|effects| - 1]), effects[|effects| - 1])
  }

  function Connect(sv: Server, link: Link): Server {
    if link in sv.socks then sv else sv.(socks := sv.socks[link := Socket(Opened, None, None, [])])
  }

  function StartClosing(sv: Server, link: Link): Server {
    sv.(socks := Perform(sv.socks, Close(link)))
  }

  function Reply(sv: Server, link: Link, msg: ServerMessage): Server {
    sv.(socks := Perform(sv.socks, Send(link, msg)))
  }

  function Enter(sv: Server, link: Link, roomId: RoomId, peer: PeerId): Server
    requires link in sv.socks
  {
    sv.(socks := sv.socks[link := sv.socks[link].(room := Some(roomId), peer := Some(peer))])
  }

  function Forget(sv: Server, link: Link): Server
    requires link in sv.socks
  {
    sv.(socks := sv.socks[link := sv.socks[link].(room := None, peer := None)])
  }

  function Settle(sv: Server, o: Outcome): Server {
    Server(o.reg, Deliver(sv.socks, o.effects))
  }

  /** onmessage of the socket `link`; `peer` is the fresh id a create or join draws. */
  function OnMessage(c: Config, sv: Server, link: Link, msg: ClientMessage, lim: Limits,
                     peer: PeerId, now: int): Server
  {
    if link !in sv.socks || sv.socks[link].ready != Opened then sv
    else if !lim.message then Reply(sv, link, ErrorMessage(RateLimited))
    else match msg
      case Ping => Reply(sv, link, Pong)
      case CreateRequest(roomId, invite, grace) =>
        if sv.socks[link].peer.Some? then Reply(sv, link, ErrorMessage(ConfigInvalid))
        else if !lim.request then Reply(sv, link, ErrorMessage(RateLimited))
        else OnCreate(c, sv, link, roomId, invite, grace, peer, now)
      case JoinRequest(roomId, token) =>
        if sv.socks[link].peer.Some? then Reply(sv, link, ErrorMessage(ConfigInvalid))
        else if !lim.request then Reply(sv, link, ErrorMessage(RateLimited))
        else OnJoin(c, sv, link, roomId, token, peer, now)
      case SignalRequest(roomId, to, payload) =>
        var s := sv.socks[link];
        if s.room == Some(roomId) && s.peer.Some? then
          Settle(sv, Outcome(sv.reg, Done, Relay(sv.reg, roomId, s.peer.value, to, payload)))
        else sv
      case LeaveRequest =>
        var s := sv.socks[link];
        if s.room.None? || s.peer.None? then sv
        else Settle(Forget(sv, link), Leave(sv.reg, s.room.value, s.peer.value))
  }

  function OnCreate(c: Config, sv: Server, link: Link, roomId: RoomId, invite: Millis, grace: Millis,
                    peer: PeerId, now: int): Server
    requires link in sv.socks
  {
    var o := Create(c, sv.reg, roomId, invite, grace, peer, link, now);
    if o.result.Refused? then Reply(sv, link, ErrorMessage(o.result.code))
    else
      var sv1 := Enter(Settle(sv, o), link, roomId, peer);
      Reply(sv1, link, Created(peer, o.result.token))
  }

  function OnJoin(c: Config, sv: Server, link: Link, roomId: RoomId, token: Option<Presented>,
                  peer: PeerId, now: int): Server
    requires link in sv.socks
  {
    var o := Join(c, sv.reg, roomId, token, peer, link, now);
    if o.result.Refused? then
      var sv1 := Reply(Settle(sv, o), link, ErrorMessage(o.result.code));
      if o.result.code == RoomIsFull then StartClosing(sv1, link) else sv1
    else
      var sv1 := Enter(Settle(sv, o), link, roomId, peer);
      Reply(sv1, link, Joined(peer, o.result.participants, o.result.graceDurationMs, o.result.token))
  }

  /** onclose: always the last event of a socket. */
  function OnClose(sv: Server, link: Link, now: int): Server {
    if link !in sv.socks || sv.socks[link].ready == Closed then sv
    else
      var s := sv.socks[link];
      var sv1 := sv.(socks := sv.socks[link := s.(ready := Closed)]);
      if s.room.Some? && s.peer.Some? then
        Forget(Settle(sv1, Disconnect(sv.reg, s.room.value, s.peer.value, now)), link)
      else sv1
  }

  function OnExpire(sv: Server, roomId: RoomId): Server {
    if roomId in sv.reg then Settle(sv, Expire(sv.reg, roomId)) else sv
  }
}
