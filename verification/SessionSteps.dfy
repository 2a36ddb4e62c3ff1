/** What every step outside the send queue and the handler's awaits does to a
    session: quiet bookkeeping, and failing all transfers. A property that
    survives those two survives the step. */
module SessionSteps {
  import opened Wrappers
  import opened Protocol
  import opened Base64url
  import opened Wire
  import opened FileTransfer
  import opened Session

  type Property = S -> bool

  /** Neither sent to the peer nor a failed send. */
  predicate IsQuietEntry(e: Entry) {
    !e.SendText? && !e.SendBinary? && (e.Emit? && e.event.FileFailed? ==> e.event.direction == Incoming)
  }

  predicate QuietLog(before: Log, after: Log) {
    before <= after && forall i :: |before| <= i < |after| ==> IsQuietEntry(after[i])
  }

  /** The active send was told to stop, unless it has sent nothing yet or is over. */
  predicate ActiveStopped(x: Transfers) {
    x.activeSend.Some? && x.activeSend.value in x.loops && x.loops[x.activeSend.value].Running? ==>
      var job := x.loops[x.activeSend.value].job;
      job.stopped.Some? || job.at.Hashing? || !Suspended(job)
  }

  /** Handshake state is kept or, with the active send stopped, dropped; nothing
      becomes secure, nothing is sent, and outgoing transfers and tokens are left
      alone. */
  predicate Quiet(s: S, s': S) {
    && s'.secret == s.secret && s'.token == s.token && s'.retriesLeft == s.retriesLeft
    && (s'.status == Secure ==> s.status == Secure)
    && (s'.hs == s.hs || (s'.hs == NO_HANDSHAKE && ActiveStopped(s.x)))
    && (s'.handler == s.handler || s'.handler == Idle || s'.handler == Busy(Generating))
    && (s'.tail == s.tail || (s.status == Secure && s'.tail == s.hs.key))
    && s'.x == s.x.(receive := s'.x.receive) && QuietLog(s.log, s'.log)
  }

  /** What is reported of a file being received. */
  predicate IsReceiveEvent(e: Event) {
    || e.FileIncoming? || e.FileComplete?
    || (e.FileProgress? && e.direction == Incoming) || (e.FileFailed? && e.direction == Incoming)
  }

  predicate SaysNoReceive(before: Log, after: Log) {
    before <= after && forall i :: |before| <= i < |after| ==> after[i].Emit? ==> !IsReceiveEvent(after[i].event)
  }

  /** Nothing waits to be sent, received or acknowledged. */
  predicate Cleared(x: Transfers) {
    x.queue == [] && x.receive.None? && x.pendingAck.None?
  }

  /** Quiet, and transfers are left alone altogether; a session ends only once they
      are cleared. */
  predicate Hushed(s: S, s': S) {
    && Quiet(s, s') && s'.x == s.x && SaysNoReceive(s.log, s'.log)
    && (s'.status == Ended && s.status != Ended ==> Cleared(s.x))
  }

  function WithToken(s: S, token: Option<Token>, retriesLeft: nat): S {
    s.(token := token, retriesLeft := retriesLeft)
  }

  ghost predicate Closed(inv: Property) {
    && (forall s, s' {:trigger Hushed(s, s')} :: inv(s) && Hushed(s, s') ==> inv(s'))
    && (forall s: S {:trigger FailAllTransfers(s)} :: inv(s) ==> inv(FailAllTransfers(s)))
  }

  ghost predicate ClosedUnderTokens(inv: Property) {
    forall s, token, retriesLeft {:trigger WithToken(s, token, retriesLeft)} :: inv(s) ==> inv(WithToken(s, token, retriesLeft))
  }

  /** It also survives what the arrival of a file does. */
  ghost predicate ClosedUnderReceives(inv: Property) {
    forall s, s' {:trigger Quiet(s, s')} :: inv(s) && Quiet(s, s') ==> inv(s')
  }

  lemma HushedKeeps(inv: Property, s: S, s': S)
    requires Closed(inv) && inv(s) && Hushed(s, s')
    ensures inv(s')
  {
  }

  lemma QuietKeeps(inv: Property, s: S, s': S)
    requires ClosedUnderReceives(inv) && inv(s) && Quiet(s, s')
    ensures inv(s')
  {
  }

  lemma ResetKeeps(inv: Property, s: S)
    requires Closed(inv) && inv(s)
    ensures inv(ResetHandshake(s))
  {
    FailAllStops(s);
    HushedKeeps(inv, FailAllTransfers(s), ResetHandshake(s));
  }

  lemma FailAllStops(s: S)
    ensures ActiveStopped(FailAllTransfers(s).x)
  {
  }

  lemma FinishAfterReset(s: S, reason: EndReason, close: bool)
    requires s.status != Ended
    ensures Hushed(ResetHandshake(s.(timers := ClearGrace(s.timers))), FinishSession(s, reason, close))
  {
    ResetClears(s.(timers := ClearGrace(s.timers)));
    hide ResetHandshake, ClearGrace;
  }

  lemma ResetClears(s: S)
    ensures var r := ResetHandshake(s); Cleared(r.x) && r.status == s.status
  {
  }

  lemma FinishKeeps(inv: Property, s: S, reason: EndReason, close: bool)
    requires Closed(inv) && inv(s)
    ensures inv(FinishSession(s, reason, close))
  {
    if s.status != Ended {
      var s1 := s.(timers := ClearGrace(s.timers));
      HushedKeeps(inv, s, s1);
      ResetKeeps(inv, s1);
      FinishAfterReset(s, reason, close);
      HushedKeeps(inv, ResetHandshake(s1), FinishSession(s, reason, close));
    }
  }

  lemma FailHandshakeKeeps(inv: Property, s: S, reason: EndReason)
    requires Closed(inv) && inv(s)
    ensures inv(FailHandshake(s, reason))
  {
    if s.status != Ended {
      var s1 := s.(log := s.log + [LeaveRoom]);
      HushedKeeps(inv, s, s1);
      FinishKeeps(inv, s1, reason, true);
    }
  }

  /** The handler gives up. */
  lemma HandlerFails(inv: Property, s: S, reason: EndReason)
    requires Closed(inv) && inv(s)
    ensures inv(FailHandshake(s.(handler := Idle), reason)) && inv(FinishSession(s.(handler := Idle), reason, true))
  {
    HushedKeeps(inv, s, s.(handler := Idle));
    FailHandshakeKeeps(inv, s.(handler := Idle), reason);
    FinishKeeps(inv, s.(handler := Idle), reason, true);
  }

  lemma FailReceiveIsQuiet(s: S, id: string, reason: FailReason)
    ensures Quiet(s, FailReceive(s, id, reason))
  {
  }

  lemma TookIsQuiet(s: S, job: ReceiveJob, a: Accept)
    requires a.NoMatch? || a.Accepted?
    ensures Quiet(s, Took(s, job, a))
  {
  }

  lemma ChunkIsQuiet(s: S, job: ReceiveJob, frame: Binary)
    requires !frame.OtherBinaryVersion?
    ensures Quiet(s, TakeChunk(s, job, frame))
  {
    FailReceiveIsQuiet(s, job.r.id, Failed);
    if frame.SealedChunk? {
      var (r, a) := AcceptChunk(job.r, frame.id, frame.seqNo, frame.bytes);
      if a.NoMatch? || a.Accepted? {
        TookIsQuiet(s, job.(r := r), a);
      }
    }
  }

  lemma RejoinKeeps(inv: Property, s: S, now: int)
    requires Closed(inv) && inv(s)
    ensures inv(RejoinTimerFired(s, now)) && inv(RejoinOrExpire(s, now))
  {
    FinishKeeps(inv, s, InviteRanOut, true);
    HushedKeeps(inv, s, AttemptRejoin(s));
  }

  lemma TickKeeps(inv: Property, s: S, now: int)
    requires Closed(inv) && inv(s)
    ensures inv(TickGrace(s, now))
  {
    FinishKeeps(inv, s, GraceRanOut, true);
    HushedKeeps(inv, s, Emits(s, GraceCountdown(s.graceDeadline - now)));
  }

  lemma TimerKeeps(inv: Property, s: S, t: nat, now: int)
    requires Closed(inv) && inv(s) && t in s.timers.pending
    ensures inv(TimerFires(s, t, now))
  {
    if s.timers.pending[t] == GraceTick {
      TickKeeps(inv, s, now);
    } else if s.timers.pending[t] == ConfirmTimeout {
      var s1 := s.(timers := s.timers.(pending := s.timers.pending - {t}));
      HushedKeeps(inv, s, s1);
      FailHandshakeKeeps(inv, s1, KeyConfirmFailed);
    } else {
      var s1 := s.(timers := s.timers.(pending := s.timers.pending - {t}, rejoin := None));
      HushedKeeps(inv, s, s1);
      RejoinKeeps(inv, s1, now);
    }
  }

  lemma WakeKeeps(inv: Property, s: S, now: int)
    requires Closed(inv) && inv(s)
    ensures inv(Wake(s, now))
  {
    if s.status != Ended && s.timers.rejoin.Some? {
      var s1 := s.(timers := s.timers.(pending := ClearId(s.timers.pending, s.timers.rejoin), rejoin := None));
      HushedKeeps(inv, s, s1);
      RejoinKeeps(inv, s1, now);
    }
  }

  lemma EndKeeps(inv: Property, s: S)
    requires Closed(inv) && inv(s)
    ensures inv(EndSession(s))
  {
    if s.status == Secure {
      HushedKeeps(inv, s, s.(tail := s.hs.key));
      FinishKeeps(inv, s.(tail := s.hs.key), YouEnded, false);
    }
    var s1 := CloseTransport(s.(log := s.log + [LeaveRoom]));
    HushedKeeps(inv, s, s1);
    FinishKeeps(inv, s1, YouEnded, false);
  }

  lemma ConnectKeeps(inv: Property, s: S, ok: bool)
    requires Closed(inv) && inv(s) && s.connects > 0
    ensures inv(ConnectSettled(s, ok))
  {
    HushedKeeps(inv, s, ConnectSettled(s, ok));
  }

  lemma GraceIsHushed(s: S, now: int)
    requires s.status != Reconnecting
    ensures Hushed(ResetHandshake(s), GraceBegun(s, now))
  {
  }

  lemma GraceKeeps(inv: Property, s: S, needsRejoin: bool, now: int)
    requires Closed(inv) && inv(s)
    ensures inv(EnterGrace(s, needsRejoin, now))
  {
    if s.status == Reconnecting {
      HushedKeeps(inv, s, ScheduleRejoin(s));
    } else {
      ResetKeeps(inv, s);
      GraceIsHushed(s, now);
      HushedKeeps(inv, ResetHandshake(s), GraceBegun(s, now));
      HushedKeeps(inv, GraceBegun(s, now), AttemptRejoin(GraceBegun(s, now)));
    }
  }

  lemma SignalingDownKeeps(inv: Property, s: S, now: int)
    requires Closed(inv) && inv(s)
    ensures inv(HandleSignalingDown(s, now))
  {
    match s.status {
      case Secure => GraceKeeps(inv, s, true, now);
      case Securing => GraceKeeps(inv, s, true, now);
      case Reconnecting => HushedKeeps(inv, s, ScheduleRejoin(s));
      case WaitingForPeer =>
        HushedKeeps(inv, s, s.(waitingRejoin := true));
        RejoinKeeps(inv, s.(waitingRejoin := true), now);
      case _ => FinishKeeps(inv, s, SignalingGone, true);
    }
  }

  lemma OpenKeeps(inv: Property, s: S, now: int)
    requires Closed(inv) && inv(s) && s.status != Ended
    ensures inv(HandleEvent(s, DataOpened, now))
  {
    var s1 := SetStatus(s.(timers := ClearGrace(s.timers)), Securing);
    SecuringIsHushed(s);
    HushedKeeps(inv, s, s1);
    ResetKeeps(inv, s1);
    HushedKeeps(inv, ResetHandshake(s1), BeginHandshake(s1));
  }

  lemma SecuringIsHushed(s: S)
    ensures Hushed(s, SetStatus(s.(timers := ClearGrace(s.timers)), Securing))
  {
  }

  /** The events that carry a token, or may cost a retry. */
  predicate TouchesTokens(e: TransportEvent) {
    e.RoomCreated? || e.RoomJoined? || e.PeerCame? || e.ServerSays?
  }

  lemma EventKeeps(inv: Property, s: S, e: TransportEvent, now: int)
    requires Closed(inv) && inv(s) && !TouchesTokens(e) && !e.DataText? && !e.DataBinary?
    ensures inv(HandleEvent(s, e, now))
  {
    if s.status != Ended {
      if e.DataOpened? {
        OpenKeeps(inv, s, now);
      } else if e.RoomGone? {
        FinishKeeps(inv, s, ReasonFor(e.reason), true);
      } else if e.SignalingDown? {
        SignalingDownKeeps(inv, s, now);
      } else {
        GraceKeeps(inv, s, false, now);
      }
    }
  }

  /** The steps of the clock, of connection attempts and of the caller, and the
      events that neither are data nor touch tokens. */
  predicate IsPlain(a: Action) {
    match a
    case Deliver(e, _) => !TouchesTokens(e) && !e.DataText? && !e.DataBinary?
    case EndCalled | TimerFired(_, _) | Woken(_) | ConnectDone(_) | ChannelIs(_) => true
    case _ => false
  }

  lemma PlainStepKeeps(inv: Property, hash: seq<byte> -> string, s: S, a: Action)
    requires Closed(inv) && inv(s) && Enabled(s, a) && IsPlain(a)
    ensures inv(Next(hash, s, a))
  {
    if a.Deliver? {
      EventKeeps(inv, s, a.event, a.now);
    } else if a.EndCalled? {
      EndKeeps(inv, s);
    } else if a.TimerFired? {
      TimerKeeps(inv, s, a.timer, a.now);
    } else if a.Woken? {
      WakeKeeps(inv, s, a.now);
    } else if a.ConnectDone? {
      ConnectKeeps(inv, s, a.ok);
    } else {
      HushedKeeps(inv, s, Next(hash, s, a));
    }
  }

  // ---- events that touch tokens ----

  lemma RememberKeeps(inv: Property, s: S, token: Option<Token>)
    requires Closed(inv) && ClosedUnderTokens(inv) && inv(s)
    ensures inv(RememberToken(s, token))
  {
    var r := RememberToken(s, token);
    assert inv(WithToken(s, r.token, r.retriesLeft));
    HushedKeeps(inv, WithToken(s, r.token, r.retriesLeft), r);
  }

  lemma JoinedIsHushed(s: S, participants: nat, grace: int, token: Option<Token>, now: int)
    ensures Hushed(RememberToken(s, token), HandleJoined(s, participants, grace, token, now))
  {
    var s1 := RoomLearnt(s, grace, token);
    LearntIsHushed(RememberToken(s, token), s1);
    AwaitPeerIsHushed(RememberToken(s, token), s1, now);
  }

  /** Only what a "joined" says about the room was written. */
  predicate Learnt(s: S, s1: S) {
    s1 == s.(graceDurationMs := s1.graceDurationMs, waitingRejoin := s1.waitingRejoin, startPending := s1.startPending)
  }

  lemma LearntIsHushed(s: S, s1: S)
    requires Learnt(s, s1)
    ensures Hushed(s, s1)
  {
  }

  lemma AwaitPeerIsHushed(s: S, s1: S, now: int)
    requires Learnt(s, s1)
    ensures Hushed(s, AwaitPeer(s1, now))
  {
  }

  lemma CreatedIsHushed(s: S, token: Option<Token>, now: int)
    requires s.status != Ended
    ensures Hushed(RememberToken(s, token), HandleEvent(s, RoomCreated(token), now))
  {
  }

  lemma ErrorKeeps(inv: Property, s: S, code: ErrorCode)
    requires Closed(inv) && ClosedUnderTokens(inv) && inv(s)
    ensures inv(HandleServerError(s, code))
  {
    FinishKeeps(inv, s, ServerErrorReason(s, code), true);
    if s.retriesLeft > 0 {
      RetryKeeps(inv, s);
    }
  }

  lemma RetryKeeps(inv: Property, s: S)
    requires Closed(inv) && ClosedUnderTokens(inv) && inv(s) && s.retriesLeft > 0
    ensures inv(ScheduleRejoin(s.(retriesLeft := s.retriesLeft - 1)))
  {
    var s1 := WithToken(s, s.token, s.retriesLeft - 1);
    assert s1 == s.(retriesLeft := s.retriesLeft - 1);
    HushedKeeps(inv, s1, ScheduleRejoin(s1));
  }

  lemma TokenStepKeeps(inv: Property, s: S, e: TransportEvent, now: int)
    requires Closed(inv) && ClosedUnderTokens(inv) && inv(s) && TouchesTokens(e)
    ensures inv(HandleEvent(s, e, now))
  {
    if s.status != Ended {
      if e.ServerSays? {
        ErrorKeeps(inv, s, e.code);
      } else {
        RememberKeeps(inv, s, e.token);
        if e.RoomCreated? {
          CreatedIsHushed(s, e.token, now);
          HushedKeeps(inv, RememberToken(s, e.token), HandleEvent(s, e, now));
        } else if e.RoomJoined? {
          JoinedIsHushed(s, e.participants, e.graceDurationMs, e.token, now);
          HushedKeeps(inv, RememberToken(s, e.token), HandleEvent(s, e, now));
        }
      }
    }
  }
}
