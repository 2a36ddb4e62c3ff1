/** The session as the object it is: fields updated in place by methods. An async
    method is cut at its awaits; `handler` and `loops` hold where each is suspended.
    The methods the outside calls (the transport, the timers, the user, a promise
    that settles) require and keep the session sound, which module KeyChange proves
    of every run; the others are the steps they are made of. */
module SessionObject {
  import opened Wrappers
  import opened Protocol
  import opened Base64url
  import opened Wire
  import opened FileTransfer
  import opened Spec = Session
  import Reachability
  import SendDiscipline
  import SendTheorems
  import SessionInvariants
  import RejoinTheorems
  import KeyChange
  import LifeTheorems
  import FilesReceived
  import TransferAnswers

  class Session {
    const secret: nat
    const inviteWindowMs: int

    var status: Status
    var startPending: bool
    var graceDurationMs: int

    /** Handshake state, fully reset on every (re)key. */
    var hs: Handshake
    /** The three timer ids, and the timer service they come from. */
    var timers: Timers

    var graceDeadline: int
    var waitingDeadline: int
    var waitingRejoin: bool
    var recoveryToken: Option<Token>
    var recoveryRetriesLeft: nat

    // The transport, and what is under way on it.
    var dataOpen: bool
    var closed: bool
    var tail: Option<Key>
    var connects: nat
    var handler: Handler

    /** Send queue, drain loop, active transfers. */
    var x: Transfers

    /** Everything emitted and sent. */
    var log: Log

    ghost function View(): S
      reads this
    {
      S(secret, inviteWindowMs, status, startPending, graceDurationMs, hs, timers,
        graceDeadline, waitingDeadline, waitingRejoin, recoveryToken, recoveryRetriesLeft,
        dataOpen, closed, tail, connects, handler, x, log)
    }

    /** Timers match the status, there is one ended event exactly once ended, the keys
        are those of one exchange, one drain loop holds one transfer, every id sendFile
        returned is in one place, and while unconfirmed no transfer can send. */
    ghost predicate Valid()
      reads this
    {
      KeyChange.Sound(View())
    }

    constructor (secret: nat, inviteWindowMs: int, graceDurationMs: int, token: Option<Token>)
      ensures Valid() && View() == Fresh(secret, inviteWindowMs, graceDurationMs, token)
    {
      this.secret, this.inviteWindowMs, this.graceDurationMs := secret, inviteWindowMs, graceDurationMs;
      status, startPending := Connecting, true;
      hs := NO_HANDSHAKE;
      timers := Timers(None, None, None, map[], 0);
      graceDeadline, waitingDeadline, waitingRejoin := 0, 0, false;
      recoveryToken, recoveryRetriesLeft := None, 0;
      dataOpen, closed, tail, connects, handler := false, false, None, 0, Idle;
      x := NO_TRANSFERS;
      log := [];
      new;
      RememberRecoveryToken(token);
      KeyChange.FreshSound(secret, inviteWindowMs, graceDurationMs, token);
    }

    // ---- small steps ----

    method Say(e: Event)
      modifies `log
      ensures View() == Emits(old(View()), e)
    {
      log := log + [Emit(e)];
    }

    method SetStatus(status: Status)
      modifies `status, `log
      ensures View() == Spec.SetStatus(old(View()), status)
    {
      if this.status == status {
        return;
      }
      this.status := status;
      Say(StatusIs(status));
    }

    method RememberRecoveryToken(token: Option<Token>)
      modifies `recoveryToken, `recoveryRetriesLeft, `log
      ensures View() == RememberToken(old(View()), token)
    {
      if token.None? || token == recoveryToken {
        return;
      }
      recoveryToken := token;
      recoveryRetriesLeft := 2;
      Say(RecoveryToken(token.value));
    }

    method ClearTimer(id: Option<nat>)
      modifies `timers
      ensures timers == old(timers).(pending := ClearId(old(timers.pending), id))
    {
      if id.Some? {
        timers := timers.(pending := timers.pending - {id.value});
      }
    }

    method SetTimer(kind: TimerKind) returns (id: nat)
      modifies `timers
      ensures id == old(timers.next)
      ensures timers == old(timers).(next := id + 1, pending := old(timers.pending)[id := kind])
    {
      id := timers.next;
      timers := timers.(next := id + 1, pending := timers.pending[id := kind]);
    }

    method ClearConfirmTimer()
      modifies `timers
      ensures timers == ClearConfirm(old(timers))
    {
      ClearTimer(timers.confirm);
      timers := timers.(confirm := None);
    }

    method ClearGraceTimers()
      modifies `timers
      ensures timers == ClearGrace(old(timers))
    {
      ClearTimer(timers.grace);
      timers := timers.(grace := None);
      ClearTimer(timers.rejoin);
      timers := timers.(rejoin := None);
    }

    // ---- failing, resetting, finishing ----

    method StopActiveSend(reason: FailReason)
      modifies `x
      ensures x == StopActive(old(x), reason)
    {
      if x.activeSend.Some? && x.activeSend.value in x.loops && x.loops[x.activeSend.value].Running? {
        var l := x.loops[x.activeSend.value];
        x := x.(loops := x.loops[x.activeSend.value := l.(job := Stop(l.job, reason))]);
      }
    }

    method FailPendingAck(reason: FailReason)
      modifies `x, `log
      ensures x == old(x).(pendingAck := None)
      ensures log == old(log) + if old(x.pendingAck).Some? then [Emit(FileFailed(old(x.pendingAck).value, Outgoing, reason))] else []
    {
      if x.pendingAck.Some? {
        var id := x.pendingAck.value;
        x := x.(pendingAck := None);
        Say(FileFailed(id, Outgoing, reason));
      }
    }

    method FailQueuedTransfers()
      modifies `x, `log
      ensures x == old(x).(queue := []) && log == old(log) + FailQueued(old(x.queue))
    {
      var queued := x.queue;
      x := x.(queue := []);
      for i := 0 to |queued|
        invariant x == old(x).(queue := []) && log == old(log) + FailQueued(queued[..i])
      {
        assert queued[..i + 1][..i] == queued[..i];
        Say(FileFailed(queued[i].src.id, Outgoing, Disconnected));
      }
      assert queued[..|queued|] == queued;
    }

    method FailActiveReceive()
      modifies `x, `log
      ensures x == old(x).(receive := None)
      ensures log == old(log) + if old(x.receive).Some? then [Emit(FileFailed(old(x.receive).value.r.id, Incoming, Disconnected))] else []
    {
      if x.receive.Some? {
        var job := x.receive.value;
        x := x.(receive := None);
        Say(FileFailed(job.r.id, Incoming, Disconnected));
      }
    }

    method FailAllTransfers()
      modifies `x, `log
      ensures View() == Spec.FailAllTransfers(old(View()))
    {
      StopActiveSend(Disconnected);
      FailPendingAck(Disconnected);
      FailQueuedTransfers();
      FailActiveReceive();
    }

    method ResetHandshakeState()
      modifies `x, `log, `timers, `hs
      ensures View() == ResetHandshake(old(View()))
    {
      FailAllTransfers();
      ClearConfirmTimer();
      hs := NO_HANDSHAKE;
    }

    method Close()
      modifies `closed, `dataOpen
      ensures View() == CloseTransport(old(View()))
    {
      closed, dataOpen := true, false;
    }

    method ClearForEnd()
      modifies `x, `log, `timers, `hs, `startPending
      ensures View() == ResetHandshake(old(View()).(timers := ClearGrace(old(timers)))).(startPending := false)
    {
      hide ResetHandshake, ClearGrace;
      ClearGraceTimers();
      ResetHandshakeState();
      startPending := false;
    }

    method Finish(reason: EndReason, closeTransport: bool)
      modifies this
      ensures View() == FinishSession(old(View()), reason, closeTransport)
    {
      hide ResetHandshake, Spec.SetStatus, ClearGrace;
      if status == Ended {
        return;
      }
      ClearForEnd();
      SetStatus(Ended);
      Say(HasEnded(reason));
      if closeTransport {
        Close();
      }
    }

    method FailHandshake(reason: EndReason)
      modifies this
      ensures View() == Spec.FailHandshake(old(View()), reason)
    {
      if status == Ended {
        return;
      }
      log := log + [LeaveRoom];
      Finish(reason, true);
    }

    // ---- grace and rejoin ----

    method ScheduleRejoin()
      modifies `timers
      ensures View() == Spec.ScheduleRejoin(old(View()))
    {
      if timers.rejoin.Some? {
        return;
      }
      var id := SetTimer(RejoinRetry);
      timers := timers.(rejoin := Some(id));
    }

    method AttemptRejoin()
      modifies `connects
      ensures View() == Spec.AttemptRejoin(old(View()))
    {
      connects := connects + 1;
    }

    method RejoinOrExpire(now: int)
      modifies this
      ensures View() == Spec.RejoinOrExpire(old(View()), now)
    {
      if now >= waitingDeadline {
        Finish(InviteRanOut, true);
        return;
      }
      AttemptRejoin();
    }

    predicate RejoinAllowed()
      reads this
      ensures RejoinAllowed() == Spec.RejoinAllowed(View())
    {
      status == Reconnecting || (status == WaitingForPeer && waitingRejoin)
    }

    method BeginGrace(now: int)
      modifies this
      ensures View() == GraceBegun(old(View()), now)
    {
      ResetHandshakeState();
      SetStatus(Reconnecting);
      graceDeadline := now + graceDurationMs;
      Say(GraceCountdown(graceDurationMs));
      var id := SetTimer(GraceTick);
      timers := timers.(grace := Some(id));
    }

    method EnterGrace(needsRejoin: bool, now: int)
      modifies this
      ensures View() == Spec.EnterGrace(old(View()), needsRejoin, now)
    {
      if status == Reconnecting {
        if needsRejoin {
          ScheduleRejoin();
        }
        return;
      }
      BeginGrace(now);
      if needsRejoin {
        AttemptRejoin();
      }
    }

    method TickGrace(now: int)
      modifies this
      ensures View() == Spec.TickGrace(old(View()), now)
    {
      var msRemaining := graceDeadline - now;
      if msRemaining <= 0 {
        Finish(GraceRanOut, true);
      } else {
        Say(GraceCountdown(msRemaining));
      }
    }

    /** The two callbacks of attemptRejoin: the room is joined again, with the latest
        token, exactly if the attempt succeeded and a rejoin is still wanted. */
    method ConnectSettled(ok: bool)
      requires Valid() && connects > 0
      modifies this
      ensures Valid() && status == old(status)
      ensures log == old(log) + if ok && old(RejoinAllowed()) then [JoinRoom(recoveryToken)] else []
      ensures View() == Spec.ConnectSettled(old(View()), ok)
    {
      ConnectFacts(View(), ok);
      AfterConnect(ok);
    }

    method AfterConnect(ok: bool)
      requires connects > 0
      modifies `connects, `log, `timers
      ensures View() == Spec.ConnectSettled(old(View()), ok)
    {
      connects := connects - 1;
      if RejoinAllowed() {
        if ok {
          log := log + [JoinRoom(recoveryToken)];
        } else {
          ScheduleRejoin();
        }
      }
    }

    method RejoinTimerFired(now: int)
      modifies this
      ensures View() == Spec.RejoinTimerFired(old(View()), now)
    {
      if waitingRejoin {
        RejoinOrExpire(now);
      } else {
        AttemptRejoin();
      }
    }

    /** The timer service calls back, never once ended: an unconfirmed handshake fails,
        grace ends at a tick exactly when its countdown has run out, and a retry is one
        more attempt, unless the invite it waits on has run out. */
    method TimerFires(t: nat, now: int)
      requires Valid() && t in timers.pending
      modifies this
      ensures Valid() && old(status) != Ended
      ensures old(timers.pending)[t] == ConfirmTimeout ==> status == Ended
      ensures old(timers.pending)[t] == GraceTick ==> (status == Ended <==> now >= old(graceDeadline))
      ensures old(timers.pending)[t] == RejoinRetry ==> Retried(old(View()), View(), now)
      ensures View() == Spec.TimerFires(old(View()), t, now)
    {
      TimerFacts(View(), t, now);
      RunTimer(t, now);
    }

    method RunTimer(t: nat, now: int)
      requires t in timers.pending
      modifies this
      ensures View() == Spec.TimerFires(old(View()), t, now)
    {
      match timers.pending[t] {
        case GraceTick => TickGrace(now);
        case ConfirmTimeout =>
          timers := timers.(pending := timers.pending - {t});
          FailHandshake(KeyConfirmFailed);
        case RejoinRetry =>
          timers := timers.(pending := timers.pending - {t}, rejoin := None);
          RejoinTimerFired(now);
      }
    }

    /** A parked retry runs at once, as by its timer; an ended session stays as it is. */
    method Wake(now: int)
      requires Valid()
      modifies this
      ensures Valid() && timers.rejoin.None?
      ensures old(status) == Ended || old(timers.rejoin).None? ==> View() == old(View())
      ensures old(status) != Ended && old(timers.rejoin).Some? ==> Retried(old(View()), View(), now)
      ensures View() == Spec.Wake(old(View()), now)
    {
      WakeFacts(View(), now);
      RetryNow(now);
    }

    method RetryNow(now: int)
      modifies this
      ensures View() == Spec.Wake(old(View()), now)
    {
      if status == Ended || timers.rejoin.None? {
        return;
      }
      ClearTimer(timers.rejoin);
      timers := timers.(rejoin := None);
      RejoinTimerFired(now);
    }

    /** end(): the session is over at once, with no timer, no key and nothing queued;
        an "end" is still under way exactly if it could be sent. */
    method End()
      requires Valid()
      modifies this
      ensures Valid() && status == Ended && timers.pending == map[]
      ensures old(status) != Ended ==>
                && hs == NO_HANDSHAKE && x.queue == [] && x.receive.None? && x.pendingAck.None?
                && log != [] && log[|log| - 1] == Emit(HasEnded(YouEnded))
                && tail == (if old(CanSend()) then old(hs.key) else None)
      ensures View() == EndSession(old(View()))
    {
      EndFacts(View());
      Ending();
    }

    /** Its asynchronous part runs up to its first await before finish. */
    method Ending()
      modifies this
      ensures View() == EndSession(old(View()))
    {
      if status == Ended {
        return;
      }
      SaysGoodbye();
      Finish(YouEnded, false);
    }

    method SaysGoodbye()
      modifies `tail, `log, `closed, `dataOpen
      ensures View() == if old(CanSend()) then old(View()).(tail := old(hs.key))
                        else CloseTransport(old(View()).(log := old(log) + [LeaveRoom]))
    {
      if status == Secure && hs.key.Some? && dataOpen {
        tail := hs.key;
      } else {
        log := log + [LeaveRoom];
        Close();
      }
    }

    /** The rest of end(): the "end" goes out if the channel is still open, then the
        room is left and the transport closed for good. */
    method EndTail()
      requires Valid() && tail.Some?
      modifies this
      ensures Valid() && closed && tail.None?
      ensures log == old(log) + (if old(dataOpen) then [SendText(SealedFrame(Sealed(old(tail).value, Payload.End)))] else []) + [LeaveRoom]
      ensures View() == Spec.EndTail(old(View()))
    {
      TailFacts(View());
      if dataOpen {
        log := log + [SendText(SealedFrame(Sealed(tail.value, Payload.End)))];
      } else {
        assert log == log + [];
      }
      tail := None;
      log := log + [LeaveRoom];
      Close();
    }

    // ---- transport events ----

    /** handleEvent, up to its first await. Ended is absorbing, no event by itself makes
        the session secure, losing the peer begins the whole grace period, and none moves
        a countdown that goes on. */
    method HandleEvent(e: TransportEvent, now: int)
      requires Valid() && Enabled(View(), Deliver(e, now))
      modifies this
      ensures Valid() && (old(status) == Ended ==> View() == old(View()))
      ensures status == Secure ==> old(status) == Secure
      ensures status == Reconnecting && old(status) == Reconnecting ==>
                graceDeadline == old(graceDeadline) && timers.grace == old(timers.grace)
      ensures LifeTheorems.Loses(e) && old(status) in {Secure, Securing} ==>
                && status == Reconnecting && graceDeadline == now + old(graceDurationMs)
                && connects == old(connects) + if e.SignalingDown? then 1 else 0
      ensures View() == Spec.HandleEvent(old(View()), e, now)
    {
      EventFacts(View(), e, now);
      Handle(e, now);
    }

    method Handle(e: TransportEvent, now: int)
      requires handler == Idle
      modifies this
      ensures View() == Spec.HandleEvent(old(View()), e, now)
    {
      if status == Ended {
        return;
      }
      match e {
        case RoomCreated(token) => HandleCreated(token, now);
        case RoomJoined(participants, grace, token) => HandleJoined(participants, grace, token, now);
        case PeerCame(token) => RememberRecoveryToken(token);
        case DataOpened => HandleDataOpen();
        case DataText(frame) => HandleRaw(frame);
        case DataBinary(frame) => HandleBinary(frame);
        case DataLost => HandlePeerGone(now);
        case PeerWent => HandlePeerGone(now);
        case ServerSays(code) => HandleServerError(code);
        case RoomGone(reason) => Finish(ReasonFor(reason), true);
        case SignalingDown => HandleSignalingLost(now);
      }
    }

    method HandleCreated(token: Option<Token>, now: int)
      requires status != Ended
      modifies `recoveryToken, `recoveryRetriesLeft, `waitingDeadline, `status, `startPending, `log
      ensures View() == Spec.HandleEvent(old(View()), RoomCreated(token), now)
    {
      hide RememberToken, Spec.SetStatus;
      RememberRecoveryToken(token);
      waitingDeadline := now + inviteWindowMs;
      SetStatus(WaitingForPeer);
      startPending := false;
    }

    method AwaitPeer(now: int)
      modifies `waitingDeadline, `status, `log
      ensures View() == Spec.AwaitPeer(old(View()), now)
    {
      if waitingDeadline == 0 {
        waitingDeadline := now + INVITE_WINDOW_MAX_MS;
      }
      SetStatus(WaitingForPeer);
    }

    method LearnRoom(grace: int, token: Option<Token>)
      modifies `recoveryToken, `recoveryRetriesLeft, `log, `graceDurationMs, `waitingRejoin, `startPending
      ensures View() == RoomLearnt(old(View()), grace, token)
    {
      RememberRecoveryToken(token);
      graceDurationMs := grace;
      waitingRejoin := false;
      startPending := false;
    }

    method HandleJoined(participants: nat, grace: int, token: Option<Token>, now: int)
      modifies this
      ensures View() == Spec.HandleJoined(old(View()), participants, grace, token, now)
    {
      LearnRoom(grace, token);
      if participants == 0 && (status == Connecting || status == WaitingForPeer) {
        AwaitPeer(now);
      }
    }

    method HandleDataOpen()
      requires status != Ended
      modifies `timers, `status, `x, `hs, `handler, `log
      ensures View() == Spec.HandleEvent(old(View()), DataOpened, 0)
    {
      ghost var s := View();
      ClearGraceTimers();
      assert View() == s.(timers := ClearGrace(s.timers));
      SetStatus(Securing);
      BeginHandshake();
    }

    method BeginHandshake()
      modifies `timers, `x, `hs, `handler, `log
      ensures View() == Spec.BeginHandshake(old(View()))
    {
      ResetHandshakeState();
      handler := Busy(Generating);
    }

    method HandlePeerGone(now: int)
      requires status != Ended
      modifies this
      ensures View() == Spec.HandleEvent(old(View()), DataLost, now)
    {
      if status == Secure || status == Securing {
        EnterGrace(false, now);
      }
    }

    method HandleServerError(code: ErrorCode)
      modifies this
      ensures View() == Spec.HandleServerError(old(View()), code)
    {
      if code == RoomNotFound && recoveryToken.Some? && recoveryRetriesLeft > 0 && RejoinAllowed() {
        recoveryRetriesLeft := recoveryRetriesLeft - 1;
        ScheduleRejoin();
        return;
      }
      var reason;
      match code {
        case RoomNotFound =>
          reason := if status == Reconnecting then GraceRanOut else if waitingRejoin then InviteRanOut else NoSuchRoom;
        case RoomIsFull => reason := FullRoom;
        case RoomExists => reason := FullRoom;
        case RateLimited => reason := Limited;
        case ConfigInvalid => reason := SignalingGone;
      }
      Finish(reason, true);
    }

    method HandleSignalingLost(now: int)
      modifies this
      ensures View() == HandleSignalingDown(old(View()), now)
    {
      if status == Secure || status == Securing {
        EnterGrace(true, now);
      } else if status == Reconnecting {
        ScheduleRejoin();
      } else if status == WaitingForPeer {
        waitingRejoin := true;
        RejoinOrExpire(now);
      } else {
        Finish(SignalingGone, true);
      }
    }

    method HandleRaw(frame: TextFrame)
      requires handler == Idle
      modifies this
      ensures View() == HandleText(old(View()), frame)
    {
      match frame {
        case OtherVersion => FailHandshake(VersionMismatch);
        case MalformedText =>
          if !hs.verified {
            FailHandshake(KeyConfirmFailed);
          }
        case PubFrame(key) =>
          if hs.keyPair.Some? && hs.key.None? {
            handler := Busy(Importing(key));
          }
        case SealedFrame(cipher) =>
          if hs.key.None? {
            hs := hs.(buffer := hs.buffer + [cipher]);
          } else {
            handler := Busy(Decrypting(hs.key.value, cipher, []));
          }
      }
    }

    method HandleBinary(frame: Binary)
      modifies `handler
      ensures View() == Spec.HandleBinary(old(View()), frame)
    {
      if x.receive.Some? && hs.verified {
        handler := Busy(AcceptingChunk(x.receive.value, frame));
      }
    }

    // ---- payloads ----

    method BecomeSecure()
      modifies `timers, `status, `log
      ensures View() == Spec.BecomeSecure(old(View()))
    {
      ClearConfirmTimer();
      SetStatus(Secure);
      Say(SecureWith(hs.code));
    }

    method FailReceive(id: string, reason: FailReason)
      modifies `x, `log
      ensures View() == Spec.FailReceive(old(View()), id, reason)
    {
      x := x.(receive := None);
      Say(FileFailed(id, Incoming, reason));
    }

    method CancelPendingAck(id: string, reason: FailReason)
      modifies `x, `log
      ensures View() == Spec.CancelPendingAck(old(View()), id, reason)
    {
      if x.pendingAck == Some(id) {
        x := x.(pendingAck := None);
        Say(FileFailed(id, Outgoing, reason));
      }
    }

    method HandleFileCancel(id: string, reason: CancelReason)
      modifies `x, `log
      ensures View() == Spec.HandleFileCancel(old(View()), id, reason)
    {
      if !hs.verified {
        return;
      }
      if ActiveId(x) == Some(id) {
        StopActiveSend(CancelReasonOf(reason));
      } else if x.receive.Some? && x.receive.value.r.id == id {
        FailReceive(id, CancelReasonOf(reason));
      } else {
        CancelPendingAck(id, CancelReasonOf(reason));
      }
    }

    method HandleOffer(o: FileOffer)
      modifies `x, `log
      ensures View() == Spec.HandleOffer(old(View()), o)
    {
      if !hs.verified || hs.key.None? {
        return;
      }
      if x.receive.Some? || ValidateOffer(o).Some? {
        return;
      }
      x := x.(receive := Some(ReceiveJob(NewReceiver(o), hs.key.value)));
      Say(FileIncoming(o.id, o.name, o.mime, o.size));
    }

    method HandleConfirm(transcript: Transcript)
      modifies this
      ensures View() == Spec.HandleConfirm(old(View()), transcript)
    {
      if hs.expected == Some(transcript) {
        hs := hs.(verified := true);
        BecomeSecure();
      } else {
        FailHandshake(KeyConfirmFailed);
      }
    }

    method HandlePayload(p: Message, now: int)
      requires !p.FileDone?
      modifies this
      ensures View() == Spec.HandlePayload(old(View()), p, now)
    {
      if p.KeyConfirm? {
        HandleConfirm(p.transcriptHash);
      } else if p.Offer? {
        HandleOffer(p.offer);
      } else if p.FileCancel? {
        HandleFileCancel(p.id, p.reason);
      } else if hs.verified {
        HandleNews(p, now);
      }
    }

    method HandleNews(p: Message, now: int)
      requires p.Identity? || p.Chat? || p.Delivered? || p.Typing? || p.End? || p.FileReceived?
      requires hs.verified
      modifies this
      ensures View() == Spec.HandlePayload(old(View()), p, now)
    {
      match p {
        case Identity(name) => Say(PeerIdentity(name));
        case Chat(id, text) => Say(ChatFrom(text, now, id));
        case Delivered(id) => Say(DeliveredTo(id));
        case Typing(active) => Say(PeerTyping(active));
        case End => Finish(ByPeer, true);
        case FileReceived(id) =>
          if x.pendingAck == Some(id) {
            x := x.(pendingAck := None);
          }
          Say(FileArrived(id));
      }
    }

    // ---- the handler runs on from an await ----

    method NextBuffered(rest: seq<Cipher>)
      modifies `handler
      ensures View() == Spec.NextBuffered(old(View()), rest)
    {
      if rest == [] || hs.key.None? {
        handler := Idle;
      } else {
        handler := Busy(Decrypting(hs.key.value, rest[0], rest[1..]));
      }
    }

    /** The handler runs on from its await: the session becomes secure only by opening,
        under its own key, a key-confirm with the transcript it computed itself; a chunk
        that is the next of the file being received is kept, and counted. */
    method ResumeHandler(hash: seq<byte> -> string, priv: nat, now: int)
      requires Valid() && handler.Busy?
      modifies this
      ensures Valid() && (old(status) == Ended ==> status == Ended)
      ensures status == Secure && old(status) != Secure ==>
                && old(handler).aw.Decrypting? && old(hs.key).Some? && old(hs.expected).Some?
                && old(handler).aw.cipher == Sealed(old(hs.key).value, KeyConfirm(old(hs.expected).value))
      ensures TakesNext(old(View())) ==>
                && x == old(x).(receive := Some(Longer(old(handler).aw.job, old(handler).aw.frame.bytes)))
                && x.receive.value.r.bytesReceived == old(handler).aw.job.r.bytesReceived + |old(handler).aw.frame.bytes|
      ensures View() == Spec.ResumeHandler(hash, old(View()), priv, now)
    {
      HandlerFacts(hash, View(), priv, now);
      ChunkFacts(hash, View(), priv, now);
      RunHandler(hash, priv, now);
    }

    method RunHandler(hash: seq<byte> -> string, priv: nat, now: int)
      requires handler.Busy?
      modifies this
      ensures View() == Spec.ResumeHandler(hash, old(View()), priv, now)
    {
      hide Spec.AfterExport, Spec.AfterImport, Spec.AfterTranscript, Spec.AfterSealing;
      hide Spec.AfterDecrypt, Spec.AfterFinish, Spec.AfterChunk;
      match handler.aw {
        case Generating => AfterGenerating(priv);
        case Exporting(mine) => AfterExport(mine);
        case Importing(peer) => AfterImport(peer);
        case Sharing(peer, shared) => handler := Busy(DerivingKey(peer, shared));
        case DerivingKey(peer, shared) => AfterKey(peer, shared);
        case DerivingCode(peer, shared) => AfterCode(peer, shared);
        case HashingTranscript(t) =>
          hs := hs.(expected := Some(t));
          AfterTranscript(t);
        case SealingConfirm(key, t) => AfterSealing(key, t);
        case Decrypting(key, cipher, rest) => AfterDecrypt(key, cipher, rest, now);
        case FinishingFile(job, sha256, rest) => AfterFinish(hash, job, sha256, rest);
        case AcceptingChunk(job, frame) => AfterChunk(job, frame);
      }
    }

    method AfterGenerating(priv: nat)
      modifies `hs, `handler
      ensures hs == old(hs).(keyPair := Some(priv)) && handler == Busy(Exporting(priv))
    {
      hs := hs.(keyPair := Some(priv));
      handler := Busy(Exporting(priv));
    }

    method AfterKey(peer: nat, shared: SharedSecret)
      modifies `hs, `handler
      ensures hs == old(hs).(key := Some(Key(secret, shared))) && handler == Busy(DerivingCode(peer, shared))
    {
      hs := hs.(key := Some(Key(secret, shared)));
      handler := Busy(DerivingCode(peer, shared));
    }

    method AfterCode(peer: nat, shared: SharedSecret)
      modifies `hs, `handler
      ensures hs == old(hs).(code := Some(SafetyCode(secret, shared)))
      ensures handler == Busy(HashingTranscript(TranscriptOf(hs.myPub, peer)))
    {
      hs := hs.(code := Some(SafetyCode(secret, shared)));
      handler := Busy(HashingTranscript(TranscriptOf(hs.myPub, peer)));
    }

    /** A handler that threw. */
    method HandlerThrew()
      modifies this
      ensures View() == Spec.HandlerThrew(old(View()))
    {
      handler := Idle;
      Finish(SignalingGone, true);
    }

    method HandlerFails(reason: EndReason)
      modifies this
      ensures View() == Spec.FailHandshake(old(View()).(handler := Idle), reason)
    {
      ghost var s := View();
      handler := Idle;
      assert View() == s.(handler := Idle);
      FailHandshake(reason);
    }

    /** The rest of beginHandshake. */
    method AfterExport(mine: nat)
      modifies this
      ensures View() == Spec.AfterExport(old(View()), mine)
    {
      hs := hs.(myPub := Some(mine));
      if !dataOpen {
        HandlerThrew();
      } else {
        SendKey(mine);
      }
    }

    method SendKey(mine: nat)
      modifies `handler, `log, `timers
      ensures View() == old(View()).(handler := Idle, timers := StartConfirm(old(timers)),
                                     log := old(log) + [SendText(PubFrame(Pub(mine)))])
    {
      handler := Idle;
      log := log + [SendText(PubFrame(Pub(mine)))];
      var id := SetTimer(ConfirmTimeout);
      timers := timers.(confirm := Some(id));
    }

    method AfterImport(peer: PubKey)
      modifies this
      ensures View() == Spec.AfterImport(old(View()), peer)
    {
      if peer.BadPub? || hs.keyPair.None? {
        HandlerFails(KeyConfirmFailed);
      } else {
        handler := Busy(Sharing(peer.n, DH(hs.keyPair.value, peer.n)));
      }
    }

    method AfterTranscript(t: Transcript)
      modifies this
      ensures View() == Spec.AfterTranscript(old(View()), t)
    {
      if hs.key.None? {
        HandlerFails(KeyConfirmFailed);
      } else {
        handler := Busy(SealingConfirm(hs.key.value, t));
      }
    }

    /** The key-confirm goes out; what was buffered is replayed. */
    method AfterSealing(key: Key, t: Transcript)
      modifies this
      ensures View() == Spec.AfterSealing(old(View()), key, t)
    {
      if !dataOpen {
        HandlerFails(KeyConfirmFailed);
        return;
      }
      handler := Idle;
      log := log + [SendText(SealedFrame(Sealed(key, KeyConfirm(t))))];
      var buffered := hs.buffer;
      hs := hs.(buffer := []);
      NextBuffered(buffered);
    }

    method AfterDecrypt(key: Key, cipher: Cipher, rest: seq<Cipher>, now: int)
      modifies this
      ensures View() == Spec.AfterDecrypt(old(View()), key, cipher, rest, now)
    {
      var p := Decrypt(key, cipher);
      handler := Idle;
      if p.None? {
        if !hs.verified {
          FailHandshake(KeyConfirmFailed);
        }
        NextBuffered(rest);
      } else if p.value.FileDone? {
        StartFinish(p.value.id, p.value.sha256, rest);
      } else {
        HandlePayload(p.value, now);
        NextBuffered(rest);
      }
    }

    method StartFinish(id: string, sha256: string, rest: seq<Cipher>)
      modifies this
      ensures View() == Spec.StartFinish(old(View()), id, sha256, rest)
    {
      if !hs.verified || x.receive.None? || x.receive.value.r.id != id {
        NextBuffered(rest);
      } else {
        var job := x.receive.value;
        x := x.(receive := None);
        handler := Busy(FinishingFile(job, sha256, rest));
      }
    }

    method AfterFinish(hash: seq<byte> -> string, job: ReceiveJob, sha256: string, rest: seq<Cipher>)
      modifies this
      ensures View() == Spec.AfterFinish(hash, old(View()), job, sha256, rest)
    {
      handler := Idle;
      var file := FileTransfer.Finish(job.r, hash, sha256);
      if file.Some? {
        Say(FileComplete(job.r.id, file.value));
      } else {
        Say(FileFailed(job.r.id, Incoming, Failed));
      }
      NextBuffered(rest);
    }

    /** The rest of handleBinary. */
    method AfterChunk(job: ReceiveJob, frame: Binary)
      modifies this
      ensures View() == Spec.AfterChunk(old(View()), job, frame)
    {
      if frame.OtherBinaryVersion? {
        HandlerFails(VersionMismatch);
      } else {
        handler := Idle;
        TakeChunk(job, frame);
      }
    }

    method TakeChunk(job: ReceiveJob, frame: Binary)
      requires !frame.OtherBinaryVersion?
      modifies `x, `log
      ensures View() == Spec.TakeChunk(old(View()), job, frame)
    {
      if frame.GarbageBinary? || frame.key != job.key {
        FailReceive(job.r.id, Failed);
        return;
      }
      var (r, a) := AcceptChunk(job.r, frame.id, frame.seqNo, frame.bytes);
      if a.OutOfOrder? || a.Overflow? {
        FailReceive(job.r.id, Failed);
        return;
      }
      if x.receive.Some? {
        x := x.(receive := Some(job.(r := r)));
      }
      if a.Accepted? {
        Say(FileProgress(job.r.id, Incoming, a.bytesDone, job.r.size));
      }
    }

    // ---- sending files ----

    predicate CanSend()
      reads this
      ensures CanSend() == Spec.CanSend(View())
    {
      status == Secure && hs.key.Some? && dataOpen
    }

    /** sendFile: accepted exactly when secure and of a size a receiver accepts; the
        transfer then is queued, held or already being read under a new id, and one
        loop drains. A refused call changes nothing. */
    method SendFile(src: Source) returns (accepted: bool)
      requires Valid() && src.id !in x.returned
      modifies this
      ensures Valid()
      ensures accepted <==> old(CanSend()) && 0 < |src.bytes| <= MAX_FILE_BYTES
      ensures accepted ==> x.draining && x.returned == old(x.returned) + [src.id] && SendDiscipline.Alive(x, src.id)
      ensures !accepted ==> View() == old(View())
      ensures View() == Spec.SendFile(old(View()), src)
    {
      SendFileFacts(View(), src);
      accepted := Enqueue(src);
    }

    method Enqueue(src: Source) returns (accepted: bool)
      modifies this
      ensures View() == Spec.SendFile(old(View()), src)
      ensures accepted <==> old(CanSend()) && 0 < |src.bytes| <= MAX_FILE_BYTES
    {
      if !CanSend() || |src.bytes| == 0 || |src.bytes| > MAX_FILE_BYTES {
        return false;
      }
      x := x.(queue := x.queue + [Queued(src, |x.returned|)], returned := x.returned + [src.id]);
      if !x.draining {
        var id := x.nextLoop;
        x := x.(draining := true, nextLoop := id + 1);
        DrainSendQueue(id);
      }
      accepted := true;
    }

    /** The drain loop runs on from its await: one loop at most, and the handshake is
        left alone. */
    method RunLoop(id: nat, readOk: bool, buffered: int)
      requires Valid() && LoopCanRun(View(), id)
      modifies `x, `log
      ensures Valid() && forall i, j :: i in x.loops && j in x.loops ==> i == j
      ensures View() == LoopRuns(old(View()), id, readOk, buffered)
    {
      LoopFacts(View(), id, readOk, buffered);
      match x.loops[id] {
        case Reading(_, _, _) => AfterRead(id, readOk);
        case Exiting => LoopExits(id);
        case Running(_, _, _, job, _, _) => if Suspended(job) { JobRunsOn(id, buffered); } else { JobEnded(id); }
      }
    }

    /** The drain loop from its head to its next await. */
    method DrainSendQueue(id: nat)
      modifies `x, `log
      ensures View() == LoopTop(old(View()), id)
    {
      while |x.queue| > 0
        invariant LoopTop(View(), id) == LoopTop(old(View()), id)
        decreases |x.queue|
      {
        var q := x.queue[0];
        x := x.(queue := x.queue[1..]);
        if CanSend() {
          x := PutLoop(x, id, Reading(q.src, hs.key.value, q.ticket));
          return;
        }
        Settle(Block(q.src, q.ticket, []), Some(Disconnected));
      }
      x := PutLoop(x, id, Exiting);
    }

    method Settle(b: Block, failed: Option<FailReason>)
      modifies `x, `log
      ensures View() == Settled(old(View()), b, failed)
    {
      x := x.(history := x.history + [b]);
      if failed.Some? {
        Say(FileFailed(b.src.id, Outgoing, failed.value));
      }
    }

    method AfterRead(id: nat, ok: bool)
      requires id in x.loops && x.loops[id].Reading?
      modifies `x, `log
      ensures View() == Spec.AfterRead(old(View()), id, ok)
    {
      var l := x.loops[id];
      if !ok {
        Settle(Block(l.src, l.ticket, []), Some(Failed));
        DrainSendQueue(id);
      } else {
        x := PutLoop(x, id, Running(l.src, l.key, l.ticket, STARTED, None, [])).(activeSend := Some(id));
      }
    }

    method JobRunsOn(id: nat, buffered: int)
      requires id in x.loops && JobCanRun(x.loops[id])
      modifies `x, `log
      ensures View() == Spec.JobRunsOn(old(View()), id, buffered)
    {
      var l := x.loops[id];
      var r := Resume(l.src, l.job, Env(CanSend(), dataOpen, buffered, SEND_HIGH_WATER_BYTES));
      var l1 := l.(job := r.job);
      if r.job.at.Offering? || r.job.at.Finishing? {
        l1 := l1.(ctl := hs.key);
      }
      if r.sent.Some? {
        l1 := l1.(sent := l.sent + [r.sent.value]);
        log := log + (Wired(l, r.sent.value) + Progress(l.src, r.sent.value));
      } else {
        assert l.sent + [] == l.sent && log + [] == log;
      }
      x := PutLoop(x, id, l1);
    }

    method JobEnded(id: nat)
      requires id in x.loops && x.loops[id].Running? && !Suspended(x.loops[id].job)
      modifies `x, `log
      ensures View() == Spec.JobEnded(old(View()), id)
    {
      var l := x.loops[id];
      var b := Block(l.src, l.ticket, l.sent);
      x := x.(activeSend := None);
      if l.job.at == Returned(true) {
        x := x.(pendingAck := Some(l.src.id));
        Settle(b, None);
      } else if l.job.at.Threw? {
        Settle(b, Some(if status == Secure then Failed else Disconnected));
      } else {
        Settle(b, Some(if l.job.stopped.Some? then l.job.stopped.value else Cancelled));
      }
      DrainSendQueue(id);
    }

    /** drainSendQueue's finally. */
    method LoopExits(id: nat)
      requires id in x.loops && x.loops[id].Exiting?
      modifies `x
      ensures View() == Spec.LoopExits(old(View()), id)
    {
      x := x.(draining := false, loops := x.loops - {id});
    }

    /** The channel drained: no job stays parked. */
    method BufferLow()
      requires Valid()
      modifies `x
      ensures Valid() && forall id :: id in x.loops && x.loops[id].Running? ==> !x.loops[id].job.parked
      ensures View() == Spec.BufferLow(old(View()))
    {
      DrainFacts(View());
      x := x.(loops := map id | id in x.loops ::
                if x.loops[id].Running? then x.loops[id].(job := BufferedLow(x.loops[id].job)) else x.loops[id]);
    }

    // ---- cancelling ----

    /** findIndex and splice. */
    method CancelInQueue(id: string)
      modifies `x, `log
      ensures View() == Spec.CancelInQueue(old(View()), id)
    {
      var queue := x.queue;
      var i := 0;
      while i < |queue| && queue[i].src.id != id
        invariant 0 <= i <= |queue|
        invariant forall j :: 0 <= j < i ==> queue[j].src.id != id
      {
        i := i + 1;
      }
      if i < |queue| {
        TransferAnswers.FirstQueued(queue, id, i);
        x := x.(queue := queue[..i] + queue[i + 1..]);
        Say(FileFailed(id, Outgoing, Cancelled));
      }
    }

    method CancelReceive(id: string)
      modifies `x, `log
      ensures View() == Spec.CancelReceive(old(View()), id)
    {
      if x.receive.Some? && x.receive.value.r.id == id {
        FailReceive(id, Cancelled);
      }
    }

    /** cancelFile: the active transfer of that id is told to stop, and is reported by
        the loop; any other is nowhere any more. */
    method CancelFile(id: string)
      requires Valid()
      modifies `x, `log
      ensures Valid()
      ensures old(ActiveId(x)) == Some(id) ==>
                old(x.activeSend).value in x.loops && var l := x.loops[old(x.activeSend).value]; l.Running? && l.job.stopped.Some?
      ensures old(ActiveId(x)) != Some(id) ==>
                && !IsQueued(x.queue, id) && x.pendingAck != Some(id)
                && (x.receive.Some? ==> x.receive.value.r.id != id)
      ensures View() == Spec.CancelFile(old(View()), id)
    {
      CancelFacts(View(), id);
      Cancel(id);
    }

    method Cancel(id: string)
      modifies `x, `log
      ensures View() == Spec.CancelFile(old(View()), id)
    {
      if ActiveId(x) == Some(id) {
        StopActiveSend(Cancelled);
        return;
      }
      CancelInQueue(id);
      CancelReceive(id);
      CancelPendingAck(id, Cancelled);
    }

    /** sendChat, sendTyping and the rest: sent under the session key exactly while
        secure with an open channel, never queued. */
    method SendApp(p: Message)
      requires Valid() && IsApp(p)
      modifies `log
      ensures Valid()
      ensures log == old(log) + if CanSend() then [SendText(SealedFrame(Sealed(hs.key.value, p)))] else []
      ensures View() == Spec.SendApp(old(View()), p)
    {
      AppFacts(View(), p);
      if CanSend() {
        log := log + [SendText(SealedFrame(Sealed(hs.key.value, p)))];
      }
    }
  }

  // ---- what the steps mean for a caller ----

  /** A retry has run: it was one more attempt, or the invite had run out. */
  predicate Retried(s: S, r: S, now: int) {
    && r.graceDeadline == s.graceDeadline && r.waitingDeadline == s.waitingDeadline
    && (if s.waitingRejoin && now >= s.waitingDeadline then r.status == Ended && r.connects == s.connects
        else r.status == s.status && r.connects == s.connects + 1)
  }

  /** The handler holds a chunk that is the next one of the file being received. */
  predicate TakesNext(s: S) {
    && s.handler.Busy? && s.handler.aw.AcceptingChunk? && s.x.receive == Some(s.handler.aw.job)
    && FilesReceived.IsAccepted(s.handler.aw.job, s.handler.aw.frame)
  }

  /** The receive with one more chunk. */
  function Longer(job: ReceiveJob, bytes: seq<byte>): ReceiveJob {
    job.(r := Receiver(job.r.id, job.r.size, job.r.chunks + [bytes], job.r.bytesReceived + |bytes|, job.r.nextSeq + 1))
  }

  function NoHash(): seq<byte> -> string {
    bytes => ""
  }

  lemma StepIsSound(s: S, a: Action)
    requires KeyChange.Sound(s) && Enabled(s, a)
    ensures KeyChange.Sound(Next(NoHash(), s, a)) && (s.status == Ended ==> Next(NoHash(), s, a).status == Ended)
  {
    KeyChange.NextKeepsSound(NoHash(), s, a);
    SessionInvariants.NextKeepsInv(NoHash(), s, a);
  }

  lemma TimerFacts(s: S, t: nat, now: int)
    requires KeyChange.Sound(s) && t in s.timers.pending
    ensures var r := TimerFires(s, t, now);
            && KeyChange.Sound(r) && s.status != Ended
            && (s.timers.pending[t] == ConfirmTimeout ==> r.status == Ended)
            && (s.timers.pending[t] == GraceTick ==> (r.status == Ended <==> now >= s.graceDeadline))
            && (s.timers.pending[t] == RejoinRetry ==> Retried(s, r, now))
  {
    StepIsSound(s, TimerFired(t, now));
    SessionInvariants.TimerKeepsInv(s, t, now);
    if s.timers.pending[t] == RejoinRetry {
      LifeTheorems.RetryAnswers(NoHash(), s, TimerFired(t, now));
    } else if s.timers.pending[t] == GraceTick {
      RejoinTheorems.GraceEndsOnTime(s, t, now);
    } else if s.timers.pending[t] == ConfirmTimeout {
      SessionInvariants.FinishSecuresNothing(s.(timers := s.timers.(pending := s.timers.pending - {t})), KeyConfirmFailed, true);
    }
  }

  lemma ConnectFacts(s: S, ok: bool)
    requires KeyChange.Sound(s) && s.connects > 0
    ensures KeyChange.Sound(ConnectSettled(s, ok)) && ConnectLeaves(s, ConnectSettled(s, ok), ok)
  {
    StepIsSound(s, ConnectDone(ok));
    ConnectRejoins(s, ok);
  }

  predicate ConnectLeaves(s: S, r: S, ok: bool) {
    && r.status == s.status && r.token == s.token
    && r.log == s.log + if ok && Spec.RejoinAllowed(s) then [JoinRoom(s.token)] else []
  }

  lemma ConnectRejoins(s: S, ok: bool)
    requires s.connects > 0
    ensures ConnectLeaves(s, ConnectSettled(s, ok), ok)
  {
    assert s.log + [] == s.log;
  }

  lemma TailFacts(s: S)
    requires KeyChange.Sound(s) && s.tail.Some?
    ensures var r := EndTail(s); KeyChange.Sound(r) && r.closed && r.tail.None?
  {
    StepIsSound(s, EndTailRuns);
  }

  lemma DrainFacts(s: S)
    requires KeyChange.Sound(s)
    ensures var r := BufferLow(s);
            KeyChange.Sound(r) && forall id :: id in r.x.loops && r.x.loops[id].Running? ==> !r.x.loops[id].job.parked
  {
    StepIsSound(s, ChannelDrained);
  }

  lemma AppFacts(s: S, p: Message)
    requires KeyChange.Sound(s) && IsApp(p)
    ensures var r := SendApp(s, p);
            && KeyChange.Sound(r)
            && r.log == s.log + if Spec.CanSend(s) then [SendText(SealedFrame(Sealed(s.hs.key.value, p)))] else []
  {
    StepIsSound(s, AppSends(p));
    assert s.log + [] == s.log;
  }

  lemma WakeFacts(s: S, now: int)
    requires KeyChange.Sound(s)
    ensures var r := Wake(s, now);
            && KeyChange.Sound(r) && r.timers.rejoin.None?
            && (if s.status == Ended || s.timers.rejoin.None? then r == s else Retried(s, r, now))
  {
    StepIsSound(s, Woken(now));
    if s.status != Ended && s.timers.rejoin.Some? {
      LifeTheorems.RetryAnswers(NoHash(), s, Woken(now));
    }
  }

  lemma EndFacts(s: S)
    requires KeyChange.Sound(s)
    ensures var r := EndSession(s);
            && KeyChange.Sound(r) && r.status == Ended && r.timers.pending == map[]
            && (s.status != Ended ==>
                  && r.hs == NO_HANDSHAKE && r.x.queue == [] && r.x.receive.None? && r.x.pendingAck.None?
                  && r.log != [] && r.log[|r.log| - 1] == Emit(HasEnded(YouEnded))
                  && r.tail == (if Spec.CanSend(s) then s.hs.key else None))
  {
    StepIsSound(s, EndCalled);
    SessionInvariants.EndKeepsInv(s);
    SessionInvariants.PendingMatchesStatus(EndSession(s));
    if s.status != Ended {
      EndingClears(s);
    }
  }

  lemma EndingClears(s: S)
    requires s.status != Ended
    ensures var r := EndSession(s);
            && r.hs == NO_HANDSHAKE && r.x.queue == [] && r.x.receive.None? && r.x.pendingAck.None?
            && r.log != [] && r.log[|r.log| - 1] == Emit(HasEnded(YouEnded))
            && r.tail == (if Spec.CanSend(s) then s.hs.key else s.tail)
  {
    if Spec.CanSend(s) {
      FinishingClears(s.(tail := s.hs.key), YouEnded);
    } else {
      FinishingClears(CloseTransport(s.(log := s.log + [LeaveRoom])), YouEnded);
    }
  }

  lemma FinishingClears(s: S, reason: EndReason)
    requires s.status != Ended
    ensures var r := FinishSession(s, reason, false);
            && r.hs == NO_HANDSHAKE && r.x.queue == [] && r.x.receive.None? && r.x.pendingAck.None?
            && r.log != [] && r.log[|r.log| - 1] == Emit(HasEnded(reason))
            && r.tail == s.tail
  {
  }

  lemma EventFacts(s: S, e: TransportEvent, now: int)
    requires KeyChange.Sound(s) && Enabled(s, Deliver(e, now))
    ensures var r := HandleEvent(s, e, now);
            && KeyChange.Sound(r) && (s.status == Ended ==> r == s) && (r.status == Secure ==> s.status == Secure)
            && (s.status == Reconnecting && r.status == Reconnecting ==>
                  r.graceDeadline == s.graceDeadline && r.timers.grace == s.timers.grace)
            && (LifeTheorems.Loses(e) && s.status in {Secure, Securing} ==>
                  && r.status == Reconnecting && r.graceDeadline == now + s.graceDurationMs
                  && r.connects == s.connects + if e.SignalingDown? then 1 else 0)
  {
    var a := Deliver(e, now);
    if LifeTheorems.Loses(e) && s.status in {Secure, Securing} {
      LifeTheorems.LossBeginsGrace(NoHash(), s, e, now);
    }
    StepIsSound(s, a);
    if HandleEvent(s, e, now).status == Secure && s.status != Secure {
      SessionInvariants.SecureOnlyByConfirm(NoHash(), s, a);
    }
    if s.status == Reconnecting && HandleEvent(s, e, now).status == Reconnecting {
      RejoinTheorems.GraceDeadlineNeverMoves(NoHash(), s, a);
    }
  }

  lemma HandlerFacts(hash: seq<byte> -> string, s: S, priv: nat, now: int)
    requires KeyChange.Sound(s) && s.handler.Busy?
    ensures var r := ResumeHandler(hash, s, priv, now);
            && KeyChange.Sound(r) && (s.status == Ended ==> r.status == Ended)
            && (r.status == Secure && s.status != Secure ==>
                  && s.handler.aw.Decrypting? && s.hs.key.Some? && s.hs.expected.Some?
                  && s.handler.aw.cipher == Reachability.OwnConfirm(s))
  {
    var a := HandlerRuns(priv, now);
    KeyChange.NextKeepsSound(hash, s, a);
    SessionInvariants.NextKeepsInv(hash, s, a);
    if ResumeHandler(hash, s, priv, now).status == Secure && s.status != Secure {
      SessionInvariants.SecureOnlyByConfirm(hash, s, a);
    }
  }

  lemma ChunkFacts(hash: seq<byte> -> string, s: S, priv: nat, now: int)
    requires s.handler.Busy?
    ensures TakesNext(s) ==>
              ResumeHandler(hash, s, priv, now).x == s.x.(receive := Some(Longer(s.handler.aw.job, s.handler.aw.frame.bytes)))
  {
    hide ResumeHandler;
    if TakesNext(s) {
      TransferAnswers.ChunkAnswers(hash, s, priv, now);
    }
  }

  lemma LoopFacts(s: S, id: nat, readOk: bool, buffered: int)
    requires KeyChange.Sound(s) && LoopCanRun(s, id)
    ensures var r := LoopRuns(s, id, readOk, buffered);
            KeyChange.Sound(r) && forall i, j :: i in r.x.loops && j in r.x.loops ==> i == j
  {
    StepIsSound(s, LoopRunsOn(id, readOk, buffered));
    OneLoop(LoopRuns(s, id, readOk, buffered).x);
  }

  lemma OneLoop(x: Transfers)
    requires SendDiscipline.LoopsOk(x)
    ensures forall i, j :: i in x.loops && j in x.loops ==> i == j
  {
    forall i, j | i in x.loops && j in x.loops ensures i == j {
      SendTheorems.RunningIsCurrent(x, i);
      SendTheorems.RunningIsCurrent(x, j);
    }
  }

  lemma SendFileFacts(s: S, src: Source)
    requires KeyChange.Sound(s) && src.id !in s.x.returned
    ensures var r := SendFile(s, src);
            && KeyChange.Sound(r)
            && (if Spec.CanSend(s) && 0 < |src.bytes| <= MAX_FILE_BYTES
                then r.x.draining && r.x.returned == s.x.returned + [src.id] && SendDiscipline.Alive(r.x, src.id)
                else r == s)
  {
    StepIsSound(s, FileOffered(src));
    if Spec.CanSend(s) && 0 < |src.bytes| <= MAX_FILE_BYTES {
      SendTheorems.AcceptedIsAlive(s, src);
    }
  }

  lemma CancelFacts(s: S, id: string)
    requires KeyChange.Sound(s)
    ensures var r := CancelFile(s, id);
            && KeyChange.Sound(r)
            && (ActiveId(s.x) == Some(id) ==>
                  s.x.activeSend.value in r.x.loops && var l := r.x.loops[s.x.activeSend.value]; l.Running? && l.job.stopped.Some?)
            && (ActiveId(s.x) != Some(id) ==>
                  && !IsQueued(r.x.queue, id) && r.x.pendingAck != Some(id)
                  && (r.x.receive.Some? ==> r.x.receive.value.r.id != id))
  {
    StepIsSound(s, FileCancelled(id));
    if ActiveId(s.x) != Some(id) {
      SendTheorems.CancelledIsGone(s, id);
    }
  }
}
