/** The life of a session as a small machine of its own: status, deadlines, timers
    and attempts, and what is announced of them. Every step of the session, whatever
    its keys and transfers, does to these exactly what the machine does. */
module Lifecycle {
  import opened Wrappers
  import opened Protocol
  import opened Base64url
  import opened Wire
  import opened FileTransfer
  import opened Session
  import opened SessionSteps
  import opened LoopSteps
  import opened SessionInvariants

  // ---- the machine ----

  /** `retrying` and `confirming`: a retry, or the timeout of the key confirmation, is
      pending. `farewell`: end() still has its last words to say. `starting`: start()
      has not settled. */
  datatype Phase = Phase(
    status: Status,
    inviteMs: int,
    graceMs: int,
    graceDeadline: int,
    waitingDeadline: int,
    waitingRejoin: bool,
    retrying: bool,
    confirming: bool,
    connects: nat,
    token: Option<Token>,
    retriesLeft: nat,
    closed: bool,
    farewell: bool,
    starting: bool)

  /** What reaches the machine. */
  datatype Signal =
    | Nothing
    | WasCreated(token: Option<Token>, now: int)
    | WasJoined(others: nat, graceMs: int, token: Option<Token>, now: int)
    | OtherCame(token: Option<Token>)
    | OtherLost(now: int)
    | ServerLost(now: int)
    | ServerRefused(error: ErrorCode)
    | RoomOver(reason: ClosedReason)
    | ChannelOpened
    | KeySent
    | Confirmed(safetyCode: Option<SafetyCode>)
    | HandshakeFailed(why: EndReason)
    | HandlerDied
    | PeerSaidEnd
    | UserEnds(canSay: bool)
    | SaidFarewell
    | Tick(now: int)
    | Retry(now: int)
    | AttemptSettled(ok: bool)

  type Step = (Phase, Log)

  function Stays(p: Phase): Step {
    (p, [])
  }

  /** The status changes, which is announced if it really does. */
  function Turns(p: Phase, status: Status): Step {
    (p.(status := status), if p.status == status then [] else [Emit(StatusIs(status))])
  }

  /** It is over, once and for all: nothing is pending and the reason is announced. */
  function Over(p: Phase, why: EndReason): Step {
    (p.(status := Ended, retrying := false, confirming := false, closed := true, starting := false),
     [Emit(StatusIs(Ended)), Emit(HasEnded(why))])
  }

  /** It leaves the room first. */
  function LeavesOver(p: Phase, why: EndReason): Step {
    (Over(p, why).0, [LeaveRoom] + Over(p, why).1)
  }

  /** A token not seen before is announced and brings two retries. */
  function Learns(p: Phase, token: Option<Token>): Step {
    if token.None? || token == p.token then Stays(p)
    else (p.(token := token, retriesLeft := 2), [Emit(RecoveryToken(token.value))])
  }

  /** One step after another. */
  function After(said: Log, x: Step): Step {
    (x.0, said + x.1)
  }

  /** The creator waits, for the invite window from now on. */
  function Waits(p: Phase, now: int): Step {
    Turns(p.(waitingDeadline := now + p.inviteMs, starting := false), WaitingForPeer)
  }

  /** A lone joiner waits too, for as long as it knows or at most an hour. */
  function Joins(p: Phase, others: nat, graceMs: int, now: int): Step {
    var q := p.(graceMs := graceMs, waitingRejoin := false, starting := false);
    if others == 0 && (q.status == Connecting || q.status == WaitingForPeer) then
      Turns(q.(waitingDeadline := if q.waitingDeadline == 0 then now + 3_600_000 else q.waitingDeadline), WaitingForPeer)
    else Stays(q)
  }

  predicate MayRejoin(p: Phase) {
    p.status == Reconnecting || (p.status == WaitingForPeer && p.waitingRejoin)
  }

  /** The whole grace period lies ahead, and is announced. */
  function Graces(p: Phase, now: int, attempts: nat): Step {
    (p.(status := Reconnecting, graceDeadline := now + p.graceMs, confirming := false, connects := p.connects + attempts),
     [Emit(StatusIs(Reconnecting)), Emit(GraceCountdown(p.graceMs))])
  }

  /** Another attempt, unless the room can no longer be waiting. */
  function Attempts(p: Phase, now: int): Step {
    if p.waitingRejoin && now >= p.waitingDeadline then Over(p, InviteRanOut)
    else Stays(p.(connects := p.connects + 1))
  }

  function Refused(p: Phase, code: ErrorCode): Step {
    match code
    case RoomNotFound =>
      if p.token.Some? && p.retriesLeft > 0 && MayRejoin(p) then
        Stays(p.(retriesLeft := p.retriesLeft - 1, retrying := true))
      else Over(p, if p.status == Reconnecting then GraceRanOut else if p.waitingRejoin then InviteRanOut else NoSuchRoom)
    case RoomIsFull => Over(p, FullRoom)
    case RoomExists => Over(p, FullRoom)
    case RateLimited => Over(p, Limited)
    case ConfigInvalid => Over(p, SignalingGone)
  }

  function Moves(p: Phase, x: Signal): Step {
    match x
    case AttemptSettled(ok) =>
      var q := p.(connects := if p.connects > 0 then p.connects - 1 else 0);
      if !MayRejoin(p) then Stays(q)
      else if ok then (q, [JoinRoom(p.token)])
      else Stays(q.(retrying := true))
    case SaidFarewell => (p.(closed := true, farewell := false), [LeaveRoom])
    case _ => if p.status == Ended then Stays(p) else Lives(p, x)
  }

  /** Until it has ended. */
  function Lives(p: Phase, x: Signal): Step {
    match x
    case WasCreated(token, now) =>
      After(Learns(p, token).1, Waits(Learns(p, token).0, now))
    case WasJoined(others, graceMs, token, now) =>
      After(Learns(p, token).1, Joins(Learns(p, token).0, others, graceMs, now))
    case OtherCame(token) => Learns(p, token)
    case OtherLost(now) => if p.status == Secure || p.status == Securing then Graces(p, now, 0) else Stays(p)
    case ServerLost(now) =>
      if p.status == Secure || p.status == Securing then Graces(p, now, 1)
      else if p.status == Reconnecting then Stays(p.(retrying := true))
      else if p.status == WaitingForPeer then Attempts(p.(waitingRejoin := true), now)
      else Over(p, SignalingGone)
    case ServerRefused(code) => Refused(p, code)
    case RoomOver(InviteExpired) => Over(p, InviteRanOut)
    case RoomOver(GraceExpired) => Over(p, GraceRanOut)
    case RoomOver(CreatorLeft) => Over(p, CreatorGone)
    case RoomOver(PeerEnded) => Over(p, ByPeer)
    case ChannelOpened => Turns(p.(retrying := false, confirming := false), Securing)
    case KeySent => Stays(p.(confirming := true))
    case Confirmed(code) =>
      var x := Turns(p.(confirming := false), Secure);
      (x.0, x.1 + [Emit(SecureWith(code))])
    case HandshakeFailed(why) => LeavesOver(p, why)
    case HandlerDied => Over(p, SignalingGone)
    case PeerSaidEnd => Over(p, ByPeer)
    case UserEnds(canSay) =>
      if canSay then (Over(p, YouEnded).0.(closed := p.closed, farewell := true), Over(p, YouEnded).1)
      else LeavesOver(p, YouEnded)
    case Tick(now) =>
      if now >= p.graceDeadline then Over(p, GraceRanOut)
      else (p, [Emit(GraceCountdown(p.graceDeadline - now))])
    case Retry(now) => Attempts(p.(retrying := false), now)
    case _ => Stays(p)
  }

  // ---- what of a session the machine sees ----

  function PhaseOf(s: S): Phase {
    Phase(s.status, s.inviteWindowMs, s.graceDurationMs, s.graceDeadline, s.waitingDeadline, s.waitingRejoin,
          s.timers.rejoin.Some?, s.timers.confirm.Some?, s.connects, s.token, s.retriesLeft, s.closed, s.tail.Some?,
          s.startPending)
  }

  predicate IsLife(e: Entry) {
    || e.JoinRoom? || e.LeaveRoom?
    || (e.Emit? && (e.event.StatusIs? || e.event.SecureWith? || e.event.GraceCountdown?
                    || e.event.RecoveryToken? || e.event.HasEnded?))
  }

  /** What was announced of its life, and what the signaling server was told. */
  function Life(log: Log): Log {
    if log == [] then []
    else Life(log[..|log| - 1]) + if IsLife(log[|log| - 1]) then [log[|log| - 1]] else []
  }

  /** What a text frame means for it. */
  function TextSignal(s: S, frame: TextFrame): Signal {
    match frame
    case OtherVersion => HandshakeFailed(VersionMismatch)
    case MalformedText => if s.hs.verified then Nothing else HandshakeFailed(KeyConfirmFailed)
    case _ => Nothing
  }

  function EventSignal(s: S, e: TransportEvent, now: int): Signal {
    match e
    case RoomCreated(token) => WasCreated(token, now)
    case RoomJoined(others, graceMs, token) => WasJoined(others, graceMs, token, now)
    case PeerCame(token) => OtherCame(token)
    case PeerWent => OtherLost(now)
    case DataLost => OtherLost(now)
    case SignalingDown => ServerLost(now)
    case ServerSays(code) => ServerRefused(code)
    case RoomGone(reason) => RoomOver(reason)
    case DataOpened => ChannelOpened
    case DataText(frame) => TextSignal(s, frame)
    case DataBinary(_) => Nothing
  }

  /** What the decrypted frame means for it. */
  function OpenedSignal(s: S, key: Key, cipher: Cipher): Signal {
    if !cipher.Sealed? || cipher.key != key then if s.hs.verified then Nothing else HandshakeFailed(KeyConfirmFailed)
    else match cipher.payload
      case KeyConfirm(t) => if s.hs.expected == Some(t) then Confirmed(s.hs.code) else HandshakeFailed(KeyConfirmFailed)
      case End => if s.hs.verified then PeerSaidEnd else Nothing
      case _ => Nothing
  }

  function HandlerSignal(s: S): Signal
    requires s.handler.Busy?
  {
    match s.handler.aw
    case Exporting(_) => if s.dataOpen then KeySent else HandlerDied
    case Importing(key) => if key.BadPub? then HandshakeFailed(KeyConfirmFailed) else Nothing
    case SealingConfirm(_, _) => if s.dataOpen then Nothing else HandshakeFailed(KeyConfirmFailed)
    case Decrypting(key, cipher, _) => OpenedSignal(s, key, cipher)
    case AcceptingChunk(_, frame) => if frame.OtherBinaryVersion? then HandshakeFailed(VersionMismatch) else Nothing
    case _ => Nothing
  }

  function TimerSignal(kind: TimerKind, now: int): Signal {
    match kind
    case GraceTick => Tick(now)
    case RejoinRetry => Retry(now)
    case ConfirmTimeout => HandshakeFailed(KeyConfirmFailed)
  }

  /** What a step means for it. */
  function SignalOf(s: S, a: Action): Signal
    requires Enabled(s, a)
  {
    match a
    case Deliver(e, now) => EventSignal(s, e, now)
    case HandlerRuns(_, _) => HandlerSignal(s)
    case EndCalled => UserEnds(CanSend(s))
    case EndTailRuns => SaidFarewell
    case TimerFired(t, now) => TimerSignal(s.timers.pending[t], now)
    case Woken(now) => if s.timers.rejoin.Some? then Retry(now) else Nothing
    case ConnectDone(ok) => AttemptSettled(ok)
    case _ => Nothing
  }

  /** The session did what the machine does. */
  predicate Follows(s: S, s': S, step: Step) {
    PhaseOf(s') == step.0 && Life(s'.log) == Life(s.log) + step.1
  }

  // ---- the log ----

  lemma LifeMore(log: Log, e: Entry)
    ensures Life(log + [e]) == Life(log) + if IsLife(e) then [e] else []
  {
    assert (log + [e])[..|log|] == log;
  }

  predicate Lifeless(before: Log, after: Log) {
    before <= after && forall i :: |before| <= i < |after| ==> !IsLife(after[i])
  }

  lemma {:induction false} LifelessSame(before: Log, after: Log)
    requires Lifeless(before, after)
    ensures Life(after) == Life(before)
    decreases |after|
  {
    if before != after {
      var front := after[..|after| - 1];
      assert after == front + [after[|after| - 1]];
      LifelessSame(before, front);
      LifeMore(front, after[|after| - 1]);
    }
  }

  lemma FailAllLifeless(s: S)
    ensures Lifeless(s.log, FailAllTransfers(s).log)
  {
  }

  /** The phase is as it was and nothing of it was announced. */
  lemma FollowsNothing(s: S, s': S)
    requires PhaseOf(s') == PhaseOf(s) && Lifeless(s.log, s'.log)
    ensures Follows(s, s', Stays(PhaseOf(s)))
  {
    LifelessSame(s.log, s'.log);
  }

  // ---- ending ----

  lemma ResetFollows(s: S)
    ensures var r := ResetHandshake(s);
            Follows(s, r, Stays(PhaseOf(s).(confirming := false))) && r.timers == ClearConfirm(s.timers)
  {
    FailAllLifeless(s);
    LifelessSame(s.log, FailAllTransfers(s).log);
  }

  /** The two last announcements. */
  lemma FinalWords(s: S, s1: S, reason: EndReason)
    requires s1.status != Ended && Life(s1.log) == Life(s.log)
    ensures var s2 := Emits(SetStatus(s1, Ended), HasEnded(reason));
            && Life(s2.log) == Life(s.log) + [Emit(StatusIs(Ended)), Emit(HasEnded(reason))]
            && s2 == s1.(status := Ended, log := s2.log)
  {
    LifeMore(s1.log, Emit(StatusIs(Ended)));
    LifeMore(s1.log + [Emit(StatusIs(Ended))], Emit(HasEnded(reason)));
  }

  lemma FinishFollows(s: S, reason: EndReason, close: bool)
    requires s.status != Ended
    ensures Follows(s, FinishSession(s, reason, close),
                    (Over(PhaseOf(s), reason).0.(closed := close || s.closed), Over(PhaseOf(s), reason).1))
  {
    hide ResetHandshake;
    var s0 := s.(timers := ClearGrace(s.timers));
    ResetFollows(s0);
    var s1 := ResetHandshake(s0).(startPending := false);
    FinalWords(s, s1, reason);
  }

  lemma FailHandshakeFollows(s: S, reason: EndReason)
    requires s.status != Ended
    ensures Follows(s, FailHandshake(s, reason), LeavesOver(PhaseOf(s), reason))
  {
    hide FinishSession;
    LifeMore(s.log, LeaveRoom);
    FinishFollows(s.(log := s.log + [LeaveRoom]), reason, true);
  }

  // ---- events ----

  lemma SetStatusFollows(s: S, status: Status)
    ensures Follows(s, SetStatus(s, status), Turns(PhaseOf(s), status))
  {
    if s.status != status {
      LifeMore(s.log, Emit(StatusIs(status)));
    }
  }

  lemma TokenFollows(s: S, token: Option<Token>)
    ensures Follows(s, RememberToken(s, token), Learns(PhaseOf(s), token))
  {
    if token.Some? && token != s.token {
      LifeMore(s.log, Emit(RecoveryToken(token.value)));
    }
  }

  /** One session step after another. */
  lemma FollowsOn(s: S, t: S, u: S, x: Step, y: Step)
    requires Follows(s, t, x) && Follows(t, u, y)
    ensures Follows(s, u, (y.0, x.1 + y.1))
  {
  }

  lemma CreatedFollows(s: S, token: Option<Token>, now: int)
    requires s.status != Ended
    ensures Follows(s, HandleEvent(s, RoomCreated(token), now), Lives(PhaseOf(s), WasCreated(token, now)))
  {
    hide RememberToken, SetStatus, Learns, Life;
    var s1 := RememberToken(s, token);
    TokenFollows(s, token);
    TokenKeepsRest(s, token);
    var s2 := s1.(waitingDeadline := now + s.inviteWindowMs);
    SetStatusFollows(s2, WaitingForPeer);
  }

  lemma TokenKeepsRest(s: S, token: Option<Token>)
    ensures var r := RememberToken(s, token); r == s.(token := r.token, retriesLeft := r.retriesLeft, log := r.log)
  {
  }

  lemma JoinedFollows(s: S, others: nat, graceMs: int, token: Option<Token>, now: int)
    ensures Follows(s, HandleJoined(s, others, graceMs, token, now), Lives(PhaseOf(s), WasJoined(others, graceMs, token, now)))
  {
    hide RememberToken, SetStatus, Learns, Life;
    var s1 := RoomLearnt(s, graceMs, token);
    TokenFollows(s, token);
    TokenKeepsRest(s, token);
    var s2 := s1.(waitingDeadline := if s1.waitingDeadline == 0 then now + INVITE_WINDOW_MAX_MS else s1.waitingDeadline);
    SetStatusFollows(s2, WaitingForPeer);
  }

  lemma GraceBegunFollows(s: S, now: int)
    requires s.status == Secure || s.status == Securing
    ensures Follows(s, GraceBegun(s, now), Graces(PhaseOf(s), now, 0))
  {
    hide ResetHandshake, Life;
    var s1 := ResetHandshake(s);
    ResetFollows(s);
    LifeMore(s1.log, Emit(StatusIs(Reconnecting)));
    LifeMore(s1.log + [Emit(StatusIs(Reconnecting))], Emit(GraceCountdown(s.graceDurationMs)));
    ResetKeepsRest(s);
  }

  lemma ResetKeepsRest(s: S)
    ensures var r := ResetHandshake(s); r == s.(timers := r.timers, hs := r.hs, x := r.x, log := r.log)
  {
  }

  lemma LostFollows(s: S, now: int)
    requires s.status == Secure || s.status == Securing
    ensures Follows(s, EnterGrace(s, false, now), Lives(PhaseOf(s), OtherLost(now)))
    ensures Follows(s, EnterGrace(s, true, now), Lives(PhaseOf(s), ServerLost(now)))
  {
    hide GraceBegun, Life;
    GraceBegunFollows(s, now);
  }

  lemma AttemptFollows(s: S, now: int)
    requires s.status != Ended && !s.closed
    ensures Follows(s, RejoinTimerFired(s, now), Attempts(PhaseOf(s), now))
  {
    hide FinishSession, Life;
    FinishFollows(s, InviteRanOut, true);
  }

  lemma ServerLostFollows(s: S, now: int)
    requires s.status != Ended && !s.closed
    ensures Follows(s, HandleSignalingDown(s, now), Lives(PhaseOf(s), ServerLost(now)))
  {
    hide FinishSession, EnterGrace, Life;
    match s.status {
      case Secure => LostFollows(s, now);
      case Securing => LostFollows(s, now);
      case Reconnecting =>
      case WaitingForPeer => AttemptFollows(s.(waitingRejoin := true), now);
      case Connecting => FinishFollows(s, SignalingGone, true);
    }
  }

  lemma RefusedFollows(s: S, code: ErrorCode)
    requires s.status != Ended && !s.closed
    ensures Follows(s, HandleServerError(s, code), Refused(PhaseOf(s), code))
  {
    hide FinishSession, Life;
    FinishFollows(s, ServerErrorReason(s, code), true);
  }

  lemma OverFollows(s: S, reason: ClosedReason)
    requires s.status != Ended && !s.closed
    ensures Follows(s, FinishSession(s, ReasonFor(reason), true), Lives(PhaseOf(s), RoomOver(reason)))
  {
    hide FinishSession, Life;
    FinishFollows(s, ReasonFor(reason), true);
  }

  lemma OpenedFollows(s: S)
    requires s.status != Ended
    ensures Follows(s, BeginHandshake(SetStatus(s.(timers := ClearGrace(s.timers)), Securing)),
                    Lives(PhaseOf(s), ChannelOpened))
  {
    hide ResetHandshake, Life, SetStatus;
    var s1 := SetStatus(s.(timers := ClearGrace(s.timers)), Securing);
    SetStatusFollows(s.(timers := ClearGrace(s.timers)), Securing);
    ResetFollows(s1);
  }

  lemma TextFollows(s: S, frame: TextFrame)
    requires s.status != Ended && !s.closed
    ensures Follows(s, HandleText(s, frame), Lives(PhaseOf(s), TextSignal(s, frame)))
  {
    hide FailHandshake, Life;
    match frame {
      case OtherVersion => FailHandshakeFollows(s, VersionMismatch);
      case MalformedText => FailHandshakeFollows(s, KeyConfirmFailed);
      case _ =>
    }
  }

  lemma EventFollows(s: S, e: TransportEvent, now: int)
    requires s.status != Ended && !s.closed
    ensures Follows(s, HandleEvent(s, e, now), Lives(PhaseOf(s), EventSignal(s, e, now)))
  {
    hide FinishSession, FailHandshake, RememberToken, EnterGrace, HandleSignalingDown, HandleServerError, HandleJoined;
    hide HandleText, BeginHandshake, Life, Graces;
    match e {
      case RoomCreated(token) => CreatedFollows(s, token, now);
      case RoomJoined(others, graceMs, token) => JoinedFollows(s, others, graceMs, token, now);
      case PeerCame(token) => TokenFollows(s, token);
      case PeerWent => if s.status == Secure || s.status == Securing { LostFollows(s, now); }
      case DataLost => if s.status == Secure || s.status == Securing { LostFollows(s, now); }
      case SignalingDown => ServerLostFollows(s, now);
      case ServerSays(code) => RefusedFollows(s, code);
      case RoomGone(reason) => OverFollows(s, reason);
      case DataOpened => OpenedFollows(s);
      case DataText(frame) => TextFollows(s, frame);
      case DataBinary(_) =>
    }
  }

  // ---- the handler ----

  /** It moved on in silence. */
  lemma QuietMoveFollows(s: S, s': S)
    requires s' == s.(hs := s'.hs, handler := s'.handler, x := s'.x, log := s'.log) && Lifeless(s.log, s'.log)
    ensures Follows(s, s', Stays(PhaseOf(s)))
  {
    LifelessSame(s.log, s'.log);
  }

  lemma NextBufferedFollows(s: S, t: S, rest: seq<Cipher>, x: Step)
    requires Follows(s, t, x)
    ensures Follows(s, NextBuffered(t, rest), x)
  {
  }

  lemma SecuringFollows(s: S)
    ensures Follows(s, BecomeSecure(s.(hs := s.hs.(verified := true))), Lives(PhaseOf(s), Confirmed(s.hs.code)))
  {
    hide Life;
    var s0 := s.(hs := s.hs.(verified := true), timers := ClearConfirm(s.timers));
    SetStatusFollows(s0, Secure);
    LifeMore(SetStatus(s0, Secure).log, Emit(SecureWith(s.hs.code)));
  }

  lemma ConfirmFollows(s: S, t: Transcript)
    requires s.status != Ended && !s.closed
    ensures Follows(s, HandleConfirm(s, t), Lives(PhaseOf(s), if s.hs.expected == Some(t) then Confirmed(s.hs.code)
                                                               else HandshakeFailed(KeyConfirmFailed)))
  {
    hide BecomeSecure, FailHandshake, Life;
    if s.hs.expected == Some(t) { SecuringFollows(s); } else { FailHandshakeFollows(s, KeyConfirmFailed); }
  }

  lemma NewsFollows(s: S, p: Message, now: int)
    requires !p.KeyConfirm? && !p.End? && !p.FileDone?
    ensures Follows(s, HandlePayload(s, p, now), Stays(PhaseOf(s)))
  {
    match p {
      case Offer(o) => OfferIsLifeless(s, o);
      case FileCancel(id, reason) => CancelIsLifeless(s, id, reason);
      case _ => NewsIsLifeless(s, p, now);
    }
    QuietMoveFollows(s, HandlePayload(s, p, now));
  }

  lemma OfferIsLifeless(s: S, o: FileOffer)
    ensures var r := HandleOffer(s, o); r == s.(x := r.x, log := r.log) && Lifeless(s.log, r.log)
  {
  }

  lemma CancelIsLifeless(s: S, id: string, reason: CancelReason)
    ensures var r := HandleFileCancel(s, id, reason); r == s.(x := r.x, log := r.log) && Lifeless(s.log, r.log)
  {
    hide FailReceive, CancelPendingAck, StopActive;
    var why := CancelReasonOf(reason);
    AckIsLifeless(s, id, why);
    FailedReceiveIsLifeless(s, id, why);
  }

  lemma AckIsLifeless(s: S, id: string, why: FailReason)
    ensures var r := CancelPendingAck(s, id, why); r == s.(x := r.x, log := r.log) && Lifeless(s.log, r.log)
  {
  }

  lemma FailedReceiveIsLifeless(s: S, id: string, why: FailReason)
    ensures var r := FailReceive(s, id, why); r == s.(x := r.x, log := r.log) && Lifeless(s.log, r.log)
  {
  }

  lemma SayingIsLifeless(s: S, e: Event)
    requires !IsLife(Emit(e))
    ensures var r := Emits(s, e); r == s.(log := r.log) && Lifeless(s.log, r.log)
  {
  }

  lemma ReceivedIsLifeless(s: S, id: string)
    ensures var r := HandleFileReceived(s, id); r == s.(x := r.x, log := r.log) && Lifeless(s.log, r.log)
  {
  }

  lemma NewsIsLifeless(s: S, p: Message, now: int)
    requires p.Identity? || p.Chat? || p.Delivered? || p.Typing? || p.FileReceived?
    ensures var r := HandlePayload(s, p, now); r == s.(x := r.x, log := r.log) && Lifeless(s.log, r.log)
  {
    match p {
      case Identity(name) => SayingIsLifeless(s, PeerIdentity(name));
      case Chat(id, text) => SayingIsLifeless(s, ChatFrom(text, now, id));
      case Delivered(id) => SayingIsLifeless(s, DeliveredTo(id));
      case Typing(active) => SayingIsLifeless(s, PeerTyping(active));
      case FileReceived(id) => ReceivedIsLifeless(s, id);
    }
  }

  lemma PayloadFollows(s: S, key: Key, p: Message, now: int)
    requires s.status != Ended && !s.closed && !p.FileDone?
    ensures Follows(s, HandlePayload(s, p, now), Lives(PhaseOf(s), OpenedSignal(s, key, Sealed(key, p))))
  {
    hide FinishSession, FailHandshake, HandleConfirm, Life;
    match p {
      case KeyConfirm(t) => ConfirmFollows(s, t);
      case End => FinishFollows(s, ByPeer, true);
      case _ => NewsFollows(s, p, now);
    }
  }

  lemma DecryptFollows(s: S, key: Key, cipher: Cipher, rest: seq<Cipher>, now: int)
    requires s.status != Ended && !s.closed && s.handler == Busy(Decrypting(key, cipher, rest))
    ensures Follows(s, AfterDecrypt(s, key, cipher, rest, now), Lives(PhaseOf(s), OpenedSignal(s, key, cipher)))
  {
    hide HandlePayload, FailHandshake, NextBuffered, StartFinish, Life;
    var s1 := s.(handler := Idle);
    var p := Decrypt(key, cipher);
    if p.None? {
      FailHandshakeFollows(s1, KeyConfirmFailed);
      NextBufferedFollows(s1, if s1.hs.verified then s1 else FailHandshake(s1, KeyConfirmFailed), rest,
                          Lives(PhaseOf(s1), OpenedSignal(s1, key, cipher)));
    } else if p.value.FileDone? {
      StartFinishFollows(s1, p.value.id, p.value.sha256, rest);
    } else {
      PayloadFollows(s1, key, p.value, now);
      NextBufferedFollows(s1, HandlePayload(s1, p.value, now), rest, Lives(PhaseOf(s1), OpenedSignal(s1, key, cipher)));
    }
  }

  lemma StartFinishFollows(s: S, id: string, sha256: string, rest: seq<Cipher>)
    ensures Follows(s, StartFinish(s, id, sha256, rest), Stays(PhaseOf(s)))
  {
    hide Life;
    NextBufferedFollows(s, s, rest, Stays(PhaseOf(s)));
    assert Life(s.log) + [] == Life(s.log);
  }

  lemma ExportFollows(s: S, mine: nat)
    requires s.status != Ended && !s.closed
    ensures Follows(s, AfterExport(s, mine), Lives(PhaseOf(s), if s.dataOpen then KeySent else HandlerDied))
  {
    hide FinishSession, Life;
    var s1 := s.(hs := s.hs.(myPub := Some(mine)), handler := Idle);
    FinishFollows(s1, SignalingGone, true);
    LifeMore(s.log, SendText(PubFrame(Pub(mine))));
  }

  lemma ImportFollows(s: S, key: PubKey)
    requires s.status != Ended && !s.closed && s.hs.keyPair.Some?
    ensures Follows(s, AfterImport(s, key), Lives(PhaseOf(s), if key.BadPub? then HandshakeFailed(KeyConfirmFailed) else Nothing))
  {
    hide FailHandshake, Life;
    FailHandshakeFollows(s.(handler := Idle), KeyConfirmFailed);
  }

  lemma SealingFollows(s: S, key: Key, t: Transcript)
    requires s.status != Ended && !s.closed
    ensures Follows(s, AfterSealing(s, key, t),
                    Lives(PhaseOf(s), if s.dataOpen then Nothing else HandshakeFailed(KeyConfirmFailed)))
  {
    hide FailHandshake, Life;
    FailHandshakeFollows(s.(handler := Idle), KeyConfirmFailed);
    LifeMore(s.log, SendText(SealedFrame(Sealed(key, KeyConfirm(t)))));
  }

  lemma ChunkFollows(s: S, job: ReceiveJob, frame: Binary)
    requires s.status != Ended && !s.closed
    ensures Follows(s, AfterChunk(s, job, frame),
                    Lives(PhaseOf(s), if frame.OtherBinaryVersion? then HandshakeFailed(VersionMismatch) else Nothing))
  {
    hide FailHandshake, TakeChunk, Life;
    var s1 := s.(handler := Idle);
    if frame.OtherBinaryVersion? {
      FailHandshakeFollows(s1, VersionMismatch);
    } else {
      TakingIsLifeless(s1, job, frame);
      QuietMoveFollows(s, TakeChunk(s1, job, frame));
    }
  }

  lemma TakingIsLifeless(s: S, job: ReceiveJob, frame: Binary)
    requires !frame.OtherBinaryVersion? && s.handler == Idle
    ensures var r := TakeChunk(s, job, frame); r == s.(x := r.x, log := r.log) && Lifeless(s.log, r.log)
  {
    hide TakeChunk;
    assert s.(handler := Idle) == s;
    ChunkIsTransfers(s, job, frame);
    ChunkSaysOneThing(s, job, frame);
  }

  lemma ChunkSaysOneThing(s: S, job: ReceiveJob, frame: Binary)
    requires !frame.OtherBinaryVersion?
    ensures var r := TakeChunk(s, job, frame);
            forall i :: |s.log| <= i < |r.log| ==> r.log[i].Emit? && (r.log[i].event.FileFailed? || r.log[i].event.FileProgress?)
  {
  }

  lemma FinishedFollows(hash: seq<byte> -> string, s: S, job: ReceiveJob, sha256: string, rest: seq<Cipher>)
    ensures Follows(s, AfterFinish(hash, s, job, sha256, rest), Stays(PhaseOf(s)))
  {
    hide NextBuffered, Life;
    var file := FileTransfer.Finish(job.r, hash, sha256);
    var e := if file.Some? then FileComplete(job.r.id, file.value) else FileFailed(job.r.id, Incoming, Failed);
    LifeMore(s.log, Emit(e));
    NextBufferedFollows(s, Emits(s.(handler := Idle), e), rest, Stays(PhaseOf(s)));
  }

  lemma DerivingFollows(hash: seq<byte> -> string, s: S, priv: nat, now: int)
    requires Inv(s) && s.status != Ended && s.handler.Busy?
    requires match s.handler.aw
             case Generating => true
             case Sharing(_, _) => true
             case DerivingKey(_, _) => true
             case DerivingCode(_, _) => true
             case HashingTranscript(_) => true
             case _ => false
    ensures Follows(s, ResumeHandler(hash, s, priv, now), Lives(PhaseOf(s), HandlerSignal(s)))
  {
    hide Life;
  }

  lemma HandlerFollows(hash: seq<byte> -> string, s: S, priv: nat, now: int)
    requires Inv(s) && s.status != Ended && s.handler.Busy?
    ensures Follows(s, ResumeHandler(hash, s, priv, now), Lives(PhaseOf(s), HandlerSignal(s)))
  {
    hide AfterExport, AfterImport, AfterSealing, AfterDecrypt, AfterFinish, AfterChunk, Life, OpenedSignal;
    match s.handler.aw {
      case Exporting(mine) => ExportFollows(s, mine);
      case Importing(key) => ImportFollows(s, key);
      case SealingConfirm(key, t) => SealingFollows(s, key, t);
      case Decrypting(key, cipher, rest) => DecryptFollows(s, key, cipher, rest, now);
      case FinishingFile(job, sha256, rest) => FinishedFollows(hash, s, job, sha256, rest);
      case AcceptingChunk(job, frame) => ChunkFollows(s, job, frame);
      case _ => DerivingFollows(hash, s, priv, now);
    }
  }

  // ---- the clock and the caller ----

  lemma TickFollows(s: S, now: int)
    requires s.status != Ended && !s.closed
    ensures Follows(s, TickGrace(s, now), Lives(PhaseOf(s), Tick(now)))
  {
    hide FinishSession, Life;
    FinishFollows(s, GraceRanOut, true);
    LifeMore(s.log, Emit(GraceCountdown(s.graceDeadline - now)));
  }

  lemma TimerFollows(s: S, t: nat, now: int)
    requires Inv(s) && s.status != Ended && t in s.timers.pending
    ensures Follows(s, TimerFires(s, t, now), Lives(PhaseOf(s), TimerSignal(s.timers.pending[t], now)))
  {
    hide TickGrace, FailHandshake, RejoinTimerFired, Life;
    match s.timers.pending[t] {
      case GraceTick => TickFollows(s, now);
      case ConfirmTimeout =>
        FailHandshakeFollows(s.(timers := s.timers.(pending := s.timers.pending - {t})), KeyConfirmFailed);
      case RejoinRetry =>
        AttemptFollows(s.(timers := s.timers.(pending := s.timers.pending - {t}, rejoin := None)), now);
    }
  }

  lemma WakeFollows(s: S, now: int)
    requires Inv(s) && s.status != Ended
    ensures Follows(s, Wake(s, now), Lives(PhaseOf(s), if s.timers.rejoin.Some? then Retry(now) else Nothing))
  {
    hide RejoinTimerFired, Life;
    AttemptFollows(s.(timers := s.timers.(pending := ClearId(s.timers.pending, s.timers.rejoin), rejoin := None)), now);
  }

  lemma EndFollows(s: S)
    requires Inv(s) && s.status != Ended
    ensures Follows(s, EndSession(s), Lives(PhaseOf(s), UserEnds(CanSend(s))))
  {
    hide FinishSession, Life;
    if CanSend(s) {
      FinishFollows(s.(tail := s.hs.key), YouEnded, false);
    } else {
      LifeMore(s.log, LeaveRoom);
      FinishFollows(CloseTransport(s.(log := s.log + [LeaveRoom])), YouEnded, false);
    }
  }

  lemma FarewellFollows(s: S)
    requires s.tail.Some?
    ensures Follows(s, EndTail(s), Moves(PhaseOf(s), SaidFarewell))
  {
    var said := if s.dataOpen then [SendText(SealedFrame(Sealed(s.tail.value, Payload.End)))] else [];
    LifelessSame(s.log, s.log + said);
    LifeMore(s.log + said, LeaveRoom);
  }

  lemma SettledFollows(s: S, ok: bool)
    requires s.connects > 0
    ensures Follows(s, ConnectSettled(s, ok), Moves(PhaseOf(s), AttemptSettled(ok)))
  {
    hide Life, ScheduleRejoin;
    LifeMore(s.log, JoinRoom(s.token));
    SchedulingFollows(s.(connects := s.connects - 1));
  }

  lemma SchedulingFollows(s: S)
    ensures Follows(s, ScheduleRejoin(s), Stays(PhaseOf(s).(retrying := true)))
  {
  }

  // ---- what does not concern it ----

  function AnyLoop(): LoopProperty {
    (l: Loop) => true
  }

  function NotOfLife(): EntryProperty {
    (e: Entry) => !IsLife(e)
  }

  lemma RanLogIsLifeless(s: S, l: Loop, buffered: int)
    requires JobCanRun(l)
    ensures forall e :: e in RanLog(s, l, buffered) ==> !IsLife(e)
  {
  }

  lemma QueueStepFollows(hash: seq<byte> -> string, s: S, a: Action)
    requires Enabled(s, a) && IsQueueStep(a)
    ensures Follows(s, Next(hash, s, a), Stays(PhaseOf(s)))
  {
    var s' := Next(hash, s, a);
    forall l, buffered | JobCanRun(l) ensures forall e :: e in RanLog(s, l, buffered) ==> NotOfLife()(e) {
      RanLogIsLifeless(s, l, buffered);
    }
    QueueStepKeeps(hash, s, a, AnyLoop(), AnyQueued(), NotOfLife());
    QueueStepIsTransfers(hash, s, a);
    assert forall i :: |s.log| <= i < |s'.log| ==> NotOfLife()(s'.log[i]);
    FollowsNothing(s, s');
  }

  lemma AppFollows(s: S, p: Message)
    ensures Follows(s, SendApp(s, p), Stays(PhaseOf(s)))
  {
    FollowsNothing(s, SendApp(s, p));
  }

  // ---- once ended ----

  lemma EndedDecryptFollows(s: S, key: Key, cipher: Cipher, rest: seq<Cipher>, now: int)
    requires Inv(s) && s.status == Ended && s.handler == Busy(Decrypting(key, cipher, rest))
    ensures Follows(s, AfterDecrypt(s, key, cipher, rest, now), Stays(PhaseOf(s)))
  {
    hide Life;
    assert AfterDecrypt(s, key, cipher, rest, now) == s.(handler := Idle);
  }

  lemma EndedHandshakeFollows(hash: seq<byte> -> string, s: S, priv: nat, now: int)
    requires Inv(s) && s.status == Ended && Handshaking(s.handler)
    ensures Follows(s, ResumeHandler(hash, s, priv, now), Stays(PhaseOf(s)))
  {
    hide Life;
    var r := ResumeHandler(hash, s, priv, now);
    assert r == s.(hs := r.hs, handler := r.handler);
  }

  lemma EndedChunkFollows(s: S, job: ReceiveJob, frame: Binary)
    requires Inv(s) && s.status == Ended
    ensures Follows(s, AfterChunk(s, job, frame), Stays(PhaseOf(s)))
  {
    hide TakeChunk, Life;
    var s1 := s.(handler := Idle);
    if !frame.OtherBinaryVersion? {
      TakingIsLifeless(s1, job, frame);
      QuietMoveFollows(s, TakeChunk(s1, job, frame));
    }
  }

  lemma EndedHandlerFollows(hash: seq<byte> -> string, s: S, priv: nat, now: int)
    requires Inv(s) && s.status == Ended && s.handler.Busy?
    ensures Follows(s, ResumeHandler(hash, s, priv, now), Stays(PhaseOf(s)))
  {
    hide AfterDecrypt, AfterFinish, AfterChunk, Life;
    match s.handler.aw {
      case Decrypting(key, cipher, rest) => EndedDecryptFollows(s, key, cipher, rest, now);
      case FinishingFile(job, sha256, rest) => FinishedFollows(hash, s, job, sha256, rest);
      case AcceptingChunk(job, frame) => EndedChunkFollows(s, job, frame);
      case _ => EndedHandshakeFollows(hash, s, priv, now);
    }
  }

  lemma EndedElseFollows(hash: seq<byte> -> string, s: S, a: Action)
    requires Inv(s) && s.status == Ended && Enabled(s, a)
    requires a.Deliver? || a.EndCalled? || a.TimerFired? || a.Woken? || a.ChannelIs?
    ensures Follows(s, Next(hash, s, a), Stays(PhaseOf(s)))
  {
    hide Life;
    PendingMatchesStatus(s);
  }

  // ---- the refinement ----

  lemma CallFollows(hash: seq<byte> -> string, s: S, a: Action)
    requires Inv(s) && s.status != Ended && Enabled(s, a) && !IsQueueStep(a)
    ensures Follows(s, Next(hash, s, a), Moves(PhaseOf(s), SignalOf(s, a)))
  {
    hide HandleEvent, ResumeHandler, EndSession, EndTail, TimerFires, Wake, ConnectSettled, SendApp, Life;
    hide EventSignal, HandlerSignal, TimerSignal;
    match a {
      case Deliver(e, now) => EventFollows(s, e, now); EventSignalIsNone(s, e, now);
      case HandlerRuns(priv, now) => HandlerFollows(hash, s, priv, now); HandlerSignalIsNone(s);
      case EndCalled => EndFollows(s);
      case EndTailRuns => FarewellFollows(s);
      case TimerFired(t, now) => TimerFollows(s, t, now); TimerSignalIsNone(s.timers.pending[t], now);
      case Woken(now) => WakeFollows(s, now);
      case ConnectDone(ok) => SettledFollows(s, ok);
      case AppSends(p) => AppFollows(s, p);
      case _ =>
    }
  }

  /** These signals are never about attempts or the farewell. */
  lemma EventSignalIsNone(s: S, e: TransportEvent, now: int)
    ensures !EventSignal(s, e, now).AttemptSettled? && !EventSignal(s, e, now).SaidFarewell?
  {
  }

  lemma HandlerSignalIsNone(s: S)
    requires s.handler.Busy?
    ensures !HandlerSignal(s).AttemptSettled? && !HandlerSignal(s).SaidFarewell?
  {
  }

  lemma TimerSignalIsNone(kind: TimerKind, now: int)
    ensures !TimerSignal(kind, now).AttemptSettled? && !TimerSignal(kind, now).SaidFarewell?
  {
  }

  /** Every step of a session does to its life exactly what the machine does: status,
      deadlines, timers and attempts are the machine's, and what is announced and what
      the signaling server is told are what it says, in that order. */
  lemma StepFollows(hash: seq<byte> -> string, s: S, a: Action)
    requires Inv(s) && Enabled(s, a)
    ensures Follows(s, Next(hash, s, a), Moves(PhaseOf(s), SignalOf(s, a)))
  {
    if IsQueueStep(a) {
      QueueStepFollows(hash, s, a);
    } else if s.status != Ended {
      CallFollows(hash, s, a);
    } else {
      EndedFollows(hash, s, a);
    }
  }

  lemma EndedFollows(hash: seq<byte> -> string, s: S, a: Action)
    requires Inv(s) && s.status == Ended && Enabled(s, a) && !IsQueueStep(a)
    ensures Follows(s, Next(hash, s, a), Moves(PhaseOf(s), SignalOf(s, a)))
  {
    hide ResumeHandler, EndTail, ConnectSettled, SendApp, Life, Lives, EventSignal, HandlerSignal, TimerSignal;
    match a {
      case HandlerRuns(priv, now) => EndedHandlerFollows(hash, s, priv, now); HandlerSignalIsNone(s);
      case EndTailRuns => FarewellFollows(s);
      case ConnectDone(ok) => SettledFollows(s, ok);
      case AppSends(p) => AppFollows(s, p);
      case Deliver(e, now) => EndedElseFollows(hash, s, a); EventSignalIsNone(s, e, now);
      case TimerFired(_, _) => assert false;
      case _ => EndedElseFollows(hash, s, a);
    }
  }

  /** The machine over what reaches it. */
  function MovesAll(p: Phase, signals: seq<Signal>): Step
    decreases |signals|
  {
    if signals == [] then Stays(p)
    else After(Moves(p, signals[0]).1, MovesAll(Moves(p, signals[0]).0, signals[1..]))
  }

  function Signals(hash: seq<byte> -> string, s: S, actions: seq<Action>): (r: seq<Signal>)
    requires IsRun(hash, s, actions)
    ensures |r| == |actions|
    decreases |actions|
  {
    if actions == [] then []
    else [SignalOf(s, actions[0])] + Signals(hash, Next(hash, s, actions[0]), actions[1..])
  }

  /** And so does every run. */
  lemma {:induction false} RunFollows(hash: seq<byte> -> string, s: S, actions: seq<Action>)
    requires Inv(s) && IsRun(hash, s, actions)
    ensures Follows(s, Run(hash, s, actions), MovesAll(PhaseOf(s), Signals(hash, s, actions)))
    decreases |actions|
  {
    hide SignalOf, Moves, Life, PhaseOf;
    if actions == [] {
      assert Life(s.log) + [] == Life(s.log);
    } else {
      var a, rest := actions[0], actions[1..];
      var s1, t := Next(hash, s, a), Run(hash, s, actions);
      var signals := Signals(hash, s, actions);
      assert signals[0] == SignalOf(s, a) && signals[1..] == Signals(hash, s1, rest);
      StepFollows(hash, s, a);
      NextKeepsInv(hash, s, a);
      RunFollows(hash, s1, rest);
      FollowsOn(s, s1, t, Moves(PhaseOf(s), SignalOf(s, a)), MovesAll(PhaseOf(s1), Signals(hash, s1, rest)));
    }
  }
}
