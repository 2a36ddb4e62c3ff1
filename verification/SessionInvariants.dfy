/** What holds of a session at every moment of every run, with end(), timers,
    connection attempts, cancellations and the drain loop interleaved at every
    await. */
module SessionInvariants {
  import opened Wrappers
  import opened Protocol
  import opened Base64url
  import opened Wire
  import opened FileTransfer
  import opened Session
  import opened SessionSteps
  import opened HandlerSteps
  import opened LoopSteps
  import opened Reachability

  // ---- timers ----

  /** Every pending timer is the one its kind's field names. */
  predicate FieldsCover(t: Timers) {
    forall id :: id in t.pending ==>
      && id < t.next
      && match t.pending[id]
         case ConfirmTimeout => t.confirm == Some(id)
         case GraceTick => t.grace == Some(id)
         case RejoinRetry => t.rejoin == Some(id)
  }

  predicate IsPending(t: Timers, field: Option<nat>, kind: TimerKind) {
    field.Some? ==> field.value in t.pending && t.pending[field.value] == kind
  }

  predicate TimersOk(t: Timers) {
    && FieldsCover(t)
    && IsPending(t, t.confirm, ConfirmTimeout)
    && IsPending(t, t.grace, GraceTick)
    && IsPending(t, t.rejoin, RejoinRetry)
  }

  lemma ClearKeepsTimers(t: Timers)
    requires TimersOk(t)
    ensures TimersOk(ClearConfirm(t)) && TimersOk(ClearGrace(t))
  {
  }

  lemma StartKeepsTimers(t: Timers)
    requires TimersOk(t)
    ensures t.confirm.None? ==> TimersOk(StartConfirm(t))
    ensures t.grace.None? ==> TimersOk(StartGrace(t))
    ensures t.rejoin.None? ==> TimersOk(StartRejoin(t))
  {
  }

  lemma ClearAll(t: Timers)
    requires FieldsCover(t)
    ensures ClearConfirm(ClearGrace(t)).pending == map[]
  {
  }

  // ---- the log ----

  predicate IsEnd(e: Entry) {
    e.Emit? && e.event.HasEnded?
  }

  /** `after` extends `before` without an ended event. */
  predicate Quietly(before: Log, after: Log) {
    before <= after && forall i :: |before| <= i < |after| ==> !IsEnd(after[i])
  }

  lemma FailAllIsQuiet(s: S)
    ensures Quietly(s.log, FailAllTransfers(s).log)
  {
  }

  /** One ended event once ended, none before. */
  predicate EndsOnce(s: S) {
    if s.status == Ended then
      exists k :: 0 <= k < |s.log| && IsEnd(s.log[k]) && forall i :: 0 <= i < |s.log| && i != k ==> !IsEnd(s.log[i])
    else forall i :: 0 <= i < |s.log| ==> !IsEnd(s.log[i])
  }

  lemma QuietKeepsEndsOnce(s: S, s': S)
    requires EndsOnce(s) && Quietly(s.log, s'.log) && (s.status == Ended <==> s'.status == Ended)
    ensures EndsOnce(s')
  {
    if s.status == Ended {
      var k :| 0 <= k < |s.log| && IsEnd(s.log[k]) && forall i :: 0 <= i < |s.log| && i != k ==> !IsEnd(s.log[i]);
      assert IsEnd(s'.log[k]);
    }
  }

  // ---- the invariant ----

  predicate PhaseOk(s: S) {
    && (s.timers.grace.Some? <==> s.status == Reconnecting)
    && (s.timers.confirm.Some? ==> s.status == Securing)
    && (s.timers.rejoin.Some? ==> s.status == Reconnecting || s.status == WaitingForPeer)
    && (s.hs.verified <==> s.status == Secure)
  }

  predicate ChannelOk(s: S) {
    && (s.closed ==> s.status == Ended && !s.dataOpen)
    && (s.tail.Some? ==> s.status == Ended)
    && (s.status == Ended ==> s.closed || s.tail.Some?)
  }

  /** The key, safety code and expected transcript all come from this secret and
      one ECDH exchange in which the session's own key took part. */
  predicate KeysOk(secret: nat, hs: Handshake) {
    && (hs.key.Some? ==>
          && hs.keyPair.Some? && hs.myPub == hs.keyPair
          && hs.key.value.secret == secret
          && (hs.keyPair.value == hs.key.value.shared.lo || hs.keyPair.value == hs.key.value.shared.hi))
    && (hs.code.Some? ==> hs.key.Some? && hs.code.value == SafetyCode(secret, hs.key.value.shared))
    && (hs.expected.Some? ==> hs.code.Some? && hs.expected.value == Hash(hs.key.value.shared.lo, hs.key.value.shared.hi))
    && (hs.verified ==> hs.expected.Some?)
  }

  predicate Handshaking(h: Handler) {
    h.Busy? && !h.aw.Decrypting? && !h.aw.FinishingFile? && !h.aw.AcceptingChunk?
  }

  predicate Agreed(hs: Handshake, peer: nat, shared: SharedSecret) {
    hs.keyPair.Some? && hs.myPub == hs.keyPair && shared == DH(hs.keyPair.value, peer)
  }

  /** What the handler holds at its await, while the session lives. */
  predicate LiveHandlerOk(s: S) {
    match s.handler
    case Idle => s.hs.key.Some? ==> s.hs.expected.Some?
    case Busy(aw) =>
      match aw
      case Generating => s.hs.key.None? && s.timers.confirm.None?
      case Exporting(mine) => s.hs.key.None? && s.hs.keyPair == Some(mine) && s.timers.confirm.None?
      case Importing(_) => s.hs.key.None? && s.hs.keyPair.Some? && s.hs.myPub == s.hs.keyPair
      case Sharing(peer, shared) => s.hs.key.None? && Agreed(s.hs, peer, shared)
      case DerivingKey(peer, shared) => s.hs.key.None? && Agreed(s.hs, peer, shared)
      case DerivingCode(peer, shared) => s.hs.key == Some(Key(s.secret, shared)) && Agreed(s.hs, peer, shared)
      case HashingTranscript(t) =>
        s.hs.key.Some? && s.hs.code.Some? && t == Hash(s.hs.key.value.shared.lo, s.hs.key.value.shared.hi)
      case SealingConfirm(key, t) => s.hs.key == Some(key) && s.hs.expected == Some(t)
      case Decrypting(key, _, _) => s.hs.key == Some(key) && s.hs.expected.Some?
      case FinishingFile(_, _, _) => s.status == Secure
      case AcceptingChunk(_, _) => s.status == Secure
  }

  predicate HandlerOk(s: S) {
    if s.status == Ended then
      if Handshaking(s.handler) then s.closed && (s.handler.aw.Importing? ==> s.hs.keyPair.None?)
      else s.handler.Busy? ==> s.hs.key.None? && s.hs.expected.None?
    else
      && KeysOk(s.secret, s.hs)
      && LiveHandlerOk(s)
      && (Handshaking(s.handler) ==> s.status == Securing)
      && (s.hs.keyPair.Some? ==> s.status == Securing || s.status == Secure)
      && (s.handler == Idle && s.hs.keyPair.Some? ==> s.hs.myPub == s.hs.keyPair)
  }

  predicate Inv(s: S) {
    TimersOk(s.timers) && PhaseOk(s) && ChannelOk(s) && HandlerOk(s) && EndsOnce(s)
  }

  /** Only transfers and the log changed. */
  predicate SameButTransfers(s: S, s': S) {
    s' == s.(x := s'.x, log := s'.log) && Quietly(s.log, s'.log)
  }

  lemma TransfersKeepInv(s: S, s': S)
    requires Inv(s) && SameButTransfers(s, s')
    ensures Inv(s')
  {
    QuietKeepsEndsOnce(s, s');
  }

  // ---- finishing ----

  lemma FinishKeepsInv(s: S, reason: EndReason, close: bool)
    requires s.status != Ended && FieldsCover(s.timers) && EndsOnce(s)
    requires s.closed ==> !s.dataOpen
    requires close || s.closed || (s.tail.Some? && !Handshaking(s.handler))
    ensures Inv(FinishSession(s, reason, close)) && FinishSession(s, reason, close).status == Ended
  {
    var r := FinishSession(s, reason, close);
    ClearAll(s.timers);
    var s0 := s.(timers := ClearGrace(s.timers));
    FailAllIsQuiet(s0);
    var k := |r.log| - 1;
    assert r.log == FailAllTransfers(s0).log + [Emit(StatusIs(Ended)), Emit(HasEnded(reason))];
    assert IsEnd(r.log[k]) && forall i :: 0 <= i < |r.log| && i != k ==> !IsEnd(r.log[i]);
  }

  lemma FailHandshakeKeepsInv(s: S, reason: EndReason)
    requires s.status != Ended ==> FieldsCover(s.timers) && EndsOnce(s) && (s.closed ==> !s.dataOpen)
    requires s.status == Ended ==> Inv(s)
    ensures Inv(FailHandshake(s, reason)) && FailHandshake(s, reason).status == Ended
  {
    if s.status != Ended {
      FinishKeepsInv(s.(log := s.log + [LeaveRoom]), reason, true);
    }
  }

  // ---- timers, grace and rejoin ----

  lemma ScheduleKeepsInv(s: S)
    requires Inv(s) && (s.status == Reconnecting || s.status == WaitingForPeer)
    ensures Inv(ScheduleRejoin(s)) && ScheduleRejoin(s).status == s.status
  {
    StartKeepsTimers(s.timers);
    QuietKeepsEndsOnce(s, ScheduleRejoin(s));
  }

  lemma RejoinOrExpireKeepsInv(s: S, now: int)
    requires Inv(s) && s.status != Ended
    ensures Inv(RejoinOrExpire(s, now))
  {
    if now >= s.waitingDeadline {
      FinishKeepsInv(s, InviteRanOut, true);
    } else {
      QuietKeepsEndsOnce(s, AttemptRejoin(s));
    }
  }

  lemma RejoinTimerKeepsInv(s: S, now: int)
    requires Inv(s) && s.timers.rejoin.Some?
    ensures Inv(RejoinTimerFired(s.(timers := s.timers.(pending := s.timers.pending - {s.timers.rejoin.value}, rejoin := None)), now))
  {
    var s1 := s.(timers := s.timers.(pending := s.timers.pending - {s.timers.rejoin.value}, rejoin := None));
    QuietKeepsEndsOnce(s, s1);
    if s.waitingRejoin {
      RejoinOrExpireKeepsInv(s1, now);
    } else {
      QuietKeepsEndsOnce(s1, AttemptRejoin(s1));
    }
  }

  lemma TimerKeepsInv(s: S, t: nat, now: int)
    requires Inv(s) && t in s.timers.pending
    ensures Inv(TimerFires(s, t, now)) && s.status != Ended
  {
    match s.timers.pending[t] {
      case GraceTick =>
        if s.graceDeadline - now <= 0 {
          FinishKeepsInv(s, GraceRanOut, true);
        } else {
          QuietKeepsEndsOnce(s, TickGrace(s, now));
        }
      case ConfirmTimeout =>
        var s1 := s.(timers := s.timers.(pending := s.timers.pending - {t}));
        QuietKeepsEndsOnce(s, s1);
        FailHandshakeKeepsInv(s1, KeyConfirmFailed);
      case RejoinRetry => RejoinTimerKeepsInv(s, now);
    }
  }

  lemma ConnectKeepsInv(s: S, ok: bool)
    requires Inv(s) && s.connects > 0
    ensures Inv(ConnectSettled(s, ok)) && ConnectSettled(s, ok).status == s.status
  {
    var s1 := s.(connects := s.connects - 1);
    QuietKeepsEndsOnce(s, s1);
    if RejoinAllowed(s1) {
      if ok {
        QuietKeepsEndsOnce(s1, ConnectSettled(s, ok));
      } else {
        ScheduleKeepsInv(s1);
      }
    }
  }

  lemma EndKeepsInv(s: S)
    requires Inv(s)
    ensures Inv(EndSession(s)) && EndSession(s).status == Ended
  {
    if s.status != Ended {
      if s.status == Secure && s.hs.key.Some? && s.dataOpen {
        FinishKeepsInv(s.(tail := s.hs.key), YouEnded, false);
      } else {
        var s1 := CloseTransport(s.(log := s.log + [LeaveRoom]));
        QuietKeepsEndsOnce(s, s1);
        FinishKeepsInv(s1, YouEnded, false);
      }
    }
  }

  lemma EndTailKeepsInv(s: S)
    requires Inv(s) && s.tail.Some?
    ensures Inv(EndTail(s)) && EndTail(s).status == Ended
  {
    QuietKeepsEndsOnce(s, EndTail(s));
  }

  // ---- transport events ----

  lemma GraceKeepsInv(s: S, needsRejoin: bool, now: int)
    requires Inv(s) && s.handler == Idle
    requires s.status == Securing || s.status == Secure || s.status == Reconnecting
    ensures Inv(EnterGrace(s, needsRejoin, now)) && EnterGrace(s, needsRejoin, now).status == Reconnecting
  {
    if s.status == Reconnecting {
      ScheduleKeepsInv(s);
    } else {
      BegunKeepsInv(s, now);
      var r := GraceBegun(s, now);
      QuietKeepsEndsOnce(r, AttemptRejoin(r));
    }
  }

  lemma BegunKeepsInv(s: S, now: int)
    requires Inv(s) && s.handler == Idle && (s.status == Securing || s.status == Secure)
    ensures Inv(GraceBegun(s, now)) && GraceBegun(s, now).status == Reconnecting
  {
    BegunTimers(s, now);
    BegunIsQuiet(s, now);
    QuietKeepsEndsOnce(s, GraceBegun(s, now));
  }

  lemma BegunTimers(s: S, now: int)
    requires TimersOk(s.timers) && s.timers.grace.None?
    ensures GraceBegun(s, now).timers == StartGrace(ClearConfirm(s.timers)) && TimersOk(GraceBegun(s, now).timers)
  {
    ClearKeepsTimers(s.timers);
    StartKeepsTimers(ClearConfirm(s.timers));
  }

  lemma BegunIsQuiet(s: S, now: int)
    ensures Quietly(s.log, GraceBegun(s, now).log)
  {
    FailAllIsQuiet(s);
  }

  lemma OpenKeepsInv(s: S, now: int)
    requires Inv(s) && s.handler == Idle && s.status != Ended
    ensures Inv(HandleEvent(s, DataOpened, now)) && HandleEvent(s, DataOpened, now).status == Securing
  {
    ClearKeepsTimers(s.timers);
    ClearKeepsTimers(ClearGrace(s.timers));
    var s1 := SetStatus(s.(timers := ClearGrace(s.timers)), Securing);
    FailAllIsQuiet(s1);
    QuietKeepsEndsOnce(s, HandleEvent(s, DataOpened, now));
  }

  lemma TokenKeepsInv(s: S, token: Option<Token>)
    requires Inv(s)
    ensures var r := RememberToken(s, token);
            Inv(r) && r == s.(log := r.log, token := r.token, retriesLeft := r.retriesLeft)
  {
    QuietKeepsEndsOnce(s, RememberToken(s, token));
  }

  lemma CreatedKeepsInv(s: S, token: Option<Token>, now: int)
    requires Inv(s) && s.handler == Idle && s.status == Connecting
    ensures var r := HandleEvent(s, RoomCreated(token), now); Inv(r) && r.status == WaitingForPeer
  {
    TokenKeepsInv(s, token);
    QuietKeepsEndsOnce(RememberToken(s, token), HandleEvent(s, RoomCreated(token), now));
  }

  lemma AwaitPeerKeepsInv(s: S, now: int)
    requires Inv(s) && (s.status == Connecting || s.status == WaitingForPeer)
    ensures Inv(AwaitPeer(s, now))
  {
    QuietKeepsEndsOnce(s, AwaitPeer(s, now));
  }

  lemma JoinedKeepsInv(s: S, participants: nat, grace: int, token: Option<Token>, now: int)
    requires Inv(s) && s.handler == Idle && s.status != Ended
    ensures Inv(HandleJoined(s, participants, grace, token, now))
  {
    TokenKeepsInv(s, token);
    var s1 := RememberToken(s, token);
    var s2 := s1.(graceDurationMs := grace, waitingRejoin := false, startPending := false);
    QuietKeepsEndsOnce(s1, s2);
    if s2.status == Connecting || s2.status == WaitingForPeer {
      AwaitPeerKeepsInv(s2, now);
    }
  }

  lemma SignalingDownKeepsInv(s: S, now: int)
    requires Inv(s) && s.handler == Idle && s.status != Ended
    ensures Inv(HandleSignalingDown(s, now))
  {
    match s.status {
      case Secure => GraceKeepsInv(s, true, now);
      case Securing => GraceKeepsInv(s, true, now);
      case Reconnecting => ScheduleKeepsInv(s);
      case WaitingForPeer =>
        var s1 := s.(waitingRejoin := true);
        QuietKeepsEndsOnce(s, s1);
        RejoinOrExpireKeepsInv(s1, now);
      case _ => FinishKeepsInv(s, SignalingGone, true);
    }
  }

  lemma ServerErrorKeepsInv(s: S, code: ErrorCode)
    requires Inv(s) && s.status != Ended
    ensures Inv(HandleServerError(s, code))
  {
    if code == RoomNotFound && s.token.Some? && s.retriesLeft > 0 && RejoinAllowed(s) {
      RetryKeepsInv(s);
    } else {
      FinishKeepsInv(s, ServerErrorReason(s, code), true);
    }
  }

  lemma RetryKeepsInv(s: S)
    requires Inv(s) && s.retriesLeft > 0 && RejoinAllowed(s)
    ensures Inv(ScheduleRejoin(s.(retriesLeft := s.retriesLeft - 1)))
  {
    var s1 := s.(retriesLeft := s.retriesLeft - 1);
    QuietKeepsEndsOnce(s, s1);
    ScheduleKeepsInv(s1);
  }

  lemma TextKeepsInv(s: S, frame: TextFrame)
    requires Inv(s) && s.handler == Idle && s.status != Ended
    ensures Inv(HandleText(s, frame))
  {
    match frame {
      case PubFrame(_) => QuietKeepsEndsOnce(s, HandleText(s, frame));
      case SealedFrame(_) => QuietKeepsEndsOnce(s, HandleText(s, frame));
      case OtherVersion => FailHandshakeKeepsInv(s, VersionMismatch);
      case MalformedText => if !s.hs.verified { FailHandshakeKeepsInv(s, KeyConfirmFailed); }
    }
  }

  lemma EventKeepsInv(s: S, e: TransportEvent, now: int)
    requires Inv(s) && Enabled(s, Deliver(e, now))
    ensures Inv(HandleEvent(s, e, now)) && (s.status == Ended ==> HandleEvent(s, e, now).status == Ended)
  {
    if s.status != Ended && TouchesTokens(e) {
      RoomEventKeepsInv(s, e, now);
    } else if s.status != Ended {
      match e {
        case DataOpened => OpenKeepsInv(s, now);
        case DataText(frame) => TextKeepsInv(s, frame);
        case DataBinary(frame) => QuietKeepsEndsOnce(s, HandleBinary(s, frame));
        case DataLost => if s.status == Secure || s.status == Securing { GraceKeepsInv(s, false, now); }
        case PeerWent => if s.status == Secure || s.status == Securing { GraceKeepsInv(s, false, now); }
        case RoomGone(reason) => FinishKeepsInv(s, ReasonFor(reason), true);
        case SignalingDown => SignalingDownKeepsInv(s, now);
      }
    }
  }

  lemma RoomEventKeepsInv(s: S, e: TransportEvent, now: int)
    requires Inv(s) && Enabled(s, Deliver(e, now)) && s.status != Ended && TouchesTokens(e)
    ensures Inv(HandleEvent(s, e, now))
  {
    match e {
      case RoomCreated(token) => CreatedKeepsInv(s, token, now);
      case RoomJoined(participants, grace, token) => JoinedKeepsInv(s, participants, grace, token, now);
      case PeerCame(token) => TokenKeepsInv(s, token);
      case ServerSays(code) => ServerErrorKeepsInv(s, code);
    }
  }

  // ---- the handler ----

  lemma ThrewKeepsInv(s: S)
    requires s.status != Ended ==> FieldsCover(s.timers) && EndsOnce(s) && (s.closed ==> !s.dataOpen)
    requires s.status == Ended ==> Inv(s)
    ensures Inv(HandlerThrew(s)) && HandlerThrew(s).status == Ended
  {
    var s1 := s.(handler := Idle);
    if s.status != Ended {
      FinishKeepsInv(s1, SignalingGone, true);
    } else {
      QuietKeepsEndsOnce(s, s1);
    }
  }

  lemma HandshakeStepKeepsInv(hash: seq<byte> -> string, s: S, priv: nat, now: int)
    requires Inv(s) && s.handler.Busy?
    requires var aw := s.handler.aw; aw.Generating? || aw.Sharing? || aw.DerivingKey? || aw.DerivingCode?
    ensures var r := ResumeHandler(hash, s, priv, now); Inv(r) && r.status == s.status
  {
    QuietKeepsEndsOnce(s, ResumeHandler(hash, s, priv, now));
  }

  lemma ExportKeepsInv(s: S, mine: nat)
    requires Inv(s) && s.handler == Busy(Exporting(mine))
    ensures Inv(AfterExport(s, mine)) && (s.status == Ended ==> AfterExport(s, mine).status == Ended)
  {
    var s1 := s.(hs := s.hs.(myPub := Some(mine)));
    QuietKeepsEndsOnce(s, s1);
    if !s.dataOpen {
      ThrewKeepsInv(s1);
    } else {
      ConfirmFreshWhileExporting(s);
      StartKeepsTimers(s.timers);
      QuietKeepsEndsOnce(s, AfterExport(s, mine));
    }
  }

  lemma ConfirmFreshWhileExporting(s: S)
    requires Inv(s) && s.handler.Busy? && s.handler.aw.Exporting? && s.dataOpen
    ensures s.timers.confirm.None?
  {
  }

  lemma ImportKeepsInv(s: S, peer: PubKey)
    requires Inv(s) && s.handler == Busy(Importing(peer))
    ensures Inv(AfterImport(s, peer)) && (s.status == Ended ==> AfterImport(s, peer).status == Ended)
  {
    if peer.BadPub? || s.hs.keyPair.None? {
      QuietKeepsEndsOnce(s, s.(handler := Idle));
      FailHandshakeKeepsInv(s.(handler := Idle), KeyConfirmFailed);
    } else {
      QuietKeepsEndsOnce(s, AfterImport(s, peer));
    }
  }

  lemma TranscriptKeepsInv(s: S, t: Transcript)
    requires Inv(s) && s.handler == Busy(HashingTranscript(t))
    ensures var r := AfterTranscript(s.(hs := s.hs.(expected := Some(t))), t);
            Inv(r) && (s.status == Ended ==> r.status == Ended)
  {
    var s1 := s.(hs := s.hs.(expected := Some(t)));
    if s1.hs.key.None? {
      QuietKeepsEndsOnce(s, s1.(handler := Idle));
      FailHandshakeKeepsInv(s1.(handler := Idle), KeyConfirmFailed);
    } else {
      QuietKeepsEndsOnce(s, AfterTranscript(s1, t));
    }
  }

  /** Moving on to the next buffered frame. */
  lemma NextBufferedKeepsInv(s: S, rest: seq<Cipher>)
    requires Inv(s.(handler := Idle)) && (s.status == Ended ==> s.hs.key.None? && s.hs.expected.None?)
    ensures Inv(NextBuffered(s, rest)) && NextBuffered(s, rest).status == s.status
  {
    QuietKeepsEndsOnce(s.(handler := Idle), NextBuffered(s, rest));
  }

  lemma SealingKeepsInv(s: S, key: Key, t: Transcript)
    requires Inv(s) && s.handler == Busy(SealingConfirm(key, t))
    ensures Inv(AfterSealing(s, key, t)) && (s.status == Ended ==> AfterSealing(s, key, t).status == Ended)
  {
    if !s.dataOpen {
      QuietKeepsEndsOnce(s, s.(handler := Idle));
      FailHandshakeKeepsInv(s.(handler := Idle), KeyConfirmFailed);
    } else {
      var s1 := s.(handler := Idle, log := s.log + [SendText(SealedFrame(Sealed(key, KeyConfirm(t))))],
                   hs := s.hs.(buffer := []));
      QuietKeepsEndsOnce(s, s1);
      NextBufferedKeepsInv(s1, s.hs.buffer);
    }
  }

  // ---- payloads ----

  /** Between payloads: nothing of a handshake is left once ended. */
  predicate PayloadReady(s: S) {
    && Inv(s) && s.handler == Idle
    && (s.status == Ended ==> s.hs.key.None? && s.hs.expected.None?)
  }

  lemma ConfirmKeepsInv(s: S, transcript: Transcript)
    requires PayloadReady(s)
    ensures PayloadReady(HandleConfirm(s, transcript))
    ensures s.status == Ended ==> HandleConfirm(s, transcript).status == Ended
  {
    if s.hs.expected == Some(transcript) {
      ClearKeepsTimers(s.timers);
      QuietKeepsEndsOnce(s, HandleConfirm(s, transcript));
    } else {
      FailHandshakeKeepsInv(s, KeyConfirmFailed);
    }
  }

  lemma FileCancelIsTransfers(s: S, id: string, reason: CancelReason)
    ensures SameButTransfers(s, HandleFileCancel(s, id, reason))
  {
  }

  lemma OfferIsTransfers(s: S, o: FileOffer)
    ensures SameButTransfers(s, HandleOffer(s, o))
  {
  }

  lemma SayingIsTransfers(s: S, e: Event)
    requires !e.HasEnded?
    ensures SameButTransfers(s, Emits(s, e))
  {
  }

  lemma NewsIsTransfers(s: S, p: Message, now: int)
    requires p.Identity? || p.Chat? || p.Delivered? || p.Typing? || p.FileReceived?
    ensures SameButTransfers(s, HandlePayload(s, p, now))
  {
    match p {
      case Identity(name) => SayingIsTransfers(s, PeerIdentity(name));
      case Chat(id, text) => SayingIsTransfers(s, ChatFrom(text, now, id));
      case Delivered(id) => SayingIsTransfers(s, DeliveredTo(id));
      case Typing(active) => SayingIsTransfers(s, PeerTyping(active));
      case FileReceived(id) => ReceivedIsTransfers(s, id);
    }
  }

  lemma ReceivedIsTransfers(s: S, id: string)
    ensures SameButTransfers(s, HandleFileReceived(s, id))
  {
  }

  lemma PayloadKeepsInv(s: S, p: Message, now: int)
    requires PayloadReady(s) && !p.FileDone?
    ensures PayloadReady(HandlePayload(s, p, now))
    ensures s.status == Ended ==> HandlePayload(s, p, now).status == Ended
  {
    if p.KeyConfirm? {
      ConfirmKeepsInv(s, p.transcriptHash);
    } else if p.End? {
      if s.hs.verified {
        FinishKeepsInv(s, ByPeer, true);
      }
    } else {
      if p.Offer? {
        OfferIsTransfers(s, p.offer);
      } else if p.FileCancel? {
        FileCancelIsTransfers(s, p.id, p.reason);
      } else {
        NewsIsTransfers(s, p, now);
      }
      TransfersKeepInv(s, HandlePayload(s, p, now));
    }
  }

  lemma DoneDecryptingIsReady(s: S)
    requires Inv(s) && s.handler.Busy? && !Handshaking(s.handler)
    ensures PayloadReady(s.(handler := Idle))
  {
    QuietKeepsEndsOnce(s, s.(handler := Idle));
  }

  lemma StartFinishKeepsInv(s: S, id: string, sha256: string, rest: seq<Cipher>)
    requires PayloadReady(s)
    ensures Inv(StartFinish(s, id, sha256, rest)) && StartFinish(s, id, sha256, rest).status == s.status
  {
    if !s.hs.verified || s.x.receive.None? || s.x.receive.value.r.id != id {
      NextBufferedKeepsInv(s, rest);
    } else {
      QuietKeepsEndsOnce(s, StartFinish(s, id, sha256, rest));
    }
  }

  lemma DecryptKeepsInv(s: S, key: Key, cipher: Cipher, rest: seq<Cipher>, now: int)
    requires Inv(s) && s.handler == Busy(Decrypting(key, cipher, rest))
    ensures var r := AfterDecrypt(s, key, cipher, rest, now); Inv(r) && (s.status == Ended ==> r.status == Ended)
  {
    var p := Decrypt(key, cipher);
    var s1 := s.(handler := Idle);
    DoneDecryptingIsReady(s);
    if p.None? {
      FailHandshakeKeepsInv(s1, KeyConfirmFailed);
      NextBufferedKeepsInv(if s1.hs.verified then s1 else FailHandshake(s1, KeyConfirmFailed), rest);
    } else if p.value.FileDone? {
      StartFinishKeepsInv(s1, p.value.id, p.value.sha256, rest);
    } else {
      PayloadKeepsInv(s1, p.value, now);
      NextBufferedKeepsInv(HandlePayload(s1, p.value, now), rest);
    }
  }

  lemma FinishFileKeepsInv(hash: seq<byte> -> string, s: S, job: ReceiveJob, sha256: string, rest: seq<Cipher>)
    requires Inv(s) && s.handler == Busy(FinishingFile(job, sha256, rest))
    ensures var r := AfterFinish(hash, s, job, sha256, rest); Inv(r) && r.status == s.status
  {
    var file := FileTransfer.Finish(job.r, hash, sha256);
    var s1 := s.(handler := Idle);
    var s2 := Emits(s1, if file.Some? then FileComplete(job.r.id, file.value) else FileFailed(job.r.id, Incoming, Failed));
    DoneDecryptingIsReady(s);
    TransfersKeepInv(s1, s2);
    NextBufferedKeepsInv(s2, rest);
  }

  lemma ChunkKeepsInv(s: S, job: ReceiveJob, frame: Binary)
    requires Inv(s) && s.handler == Busy(AcceptingChunk(job, frame))
    ensures var r := AfterChunk(s, job, frame); Inv(r) && (s.status == Ended ==> r.status == Ended)
  {
    DoneDecryptingIsReady(s);
    var s1 := s.(handler := Idle);
    if frame.OtherBinaryVersion? {
      FailHandshakeKeepsInv(s1, VersionMismatch);
    } else {
      ChunkIsTransfers(s, job, frame);
      TransfersKeepInv(s1, AfterChunk(s, job, frame));
    }
  }

  lemma ChunkIsTransfers(s: S, job: ReceiveJob, frame: Binary)
    requires !frame.OtherBinaryVersion?
    ensures SameButTransfers(s.(handler := Idle), AfterChunk(s, job, frame))
  {
    var s1 := s.(handler := Idle);
    FailedReceiveIsTransfers(s1, job.r.id, Failed);
    if frame.SealedChunk? {
      var (r, a) := AcceptChunk(job.r, frame.id, frame.seqNo, frame.bytes);
      if a.NoMatch? || a.Accepted? {
        TookIsTransfers(s1, job.(r := r), a);
      }
    }
  }

  lemma FailedReceiveIsTransfers(s: S, id: string, reason: FailReason)
    ensures SameButTransfers(s, FailReceive(s, id, reason))
  {
  }

  lemma TookIsTransfers(s: S, job: ReceiveJob, a: Accept)
    requires a.NoMatch? || a.Accepted?
    ensures SameButTransfers(s, Took(s, job, a))
  {
  }

  lemma HandlerKeepsInv(hash: seq<byte> -> string, s: S, priv: nat, now: int)
    requires Inv(s) && s.handler.Busy?
    ensures var r := ResumeHandler(hash, s, priv, now); Inv(r) && (s.status == Ended ==> r.status == Ended)
  {
    match s.handler.aw {
      case Exporting(mine) => ExportKeepsInv(s, mine);
      case Importing(peer) => ImportKeepsInv(s, peer);
      case HashingTranscript(t) => TranscriptKeepsInv(s, t);
      case SealingConfirm(key, t) => SealingKeepsInv(s, key, t);
      case Decrypting(key, cipher, rest) => DecryptKeepsInv(s, key, cipher, rest, now);
      case FinishingFile(job, sha256, rest) => FinishFileKeepsInv(hash, s, job, sha256, rest);
      case AcceptingChunk(job, frame) => ChunkKeepsInv(s, job, frame);
      case _ => HandshakeStepKeepsInv(hash, s, priv, now);
    }
  }

  // ---- the drain loop ----

  lemma {:induction false} LoopTopIsTransfers(s: S, id: nat)
    ensures SameButTransfers(s, LoopTop(s, id))
    decreases |s.x.queue|
  {
    if s.x.queue != [] && !CanSend(s) {
      var q := s.x.queue[0];
      var s1 := Settled(s.(x := s.x.(queue := s.x.queue[1..])), Block(q.src, q.ticket, []), Some(Disconnected));
      LoopTopIsTransfers(s1, id);
    }
  }

  lemma SettledIsTransfers(s: S, b: Block, failed: Option<FailReason>)
    ensures SameButTransfers(s, Settled(s, b, failed))
  {
  }

  lemma SameButTransfersChains(s0: S, s1: S, s2: S)
    requires SameButTransfers(s0, s1) && SameButTransfers(s1, s2)
    ensures SameButTransfers(s0, s2)
  {
  }

  /** A transfer is settled and the loop goes on. */
  lemma SettledThenTopIsTransfers(s: S, s1: S, id: nat, b: Block, failed: Option<FailReason>)
    requires s1 == s.(x := s1.x)
    ensures SameButTransfers(s, LoopTop(Settled(s1, b, failed), id))
  {
    var s2 := Settled(s1, b, failed);
    SettledIsTransfers(s1, b, failed);
    SameButTransfersChains(s, s1, s2);
    LoopTopIsTransfers(s2, id);
    SameButTransfersChains(s, s2, LoopTop(s2, id));
  }

  lemma JobEndedIsTransfers(s: S, id: nat)
    requires id in s.x.loops && s.x.loops[id].Running? && !Suspended(s.x.loops[id].job)
    ensures SameButTransfers(s, JobEnded(s, id))
  {
    var l := s.x.loops[id];
    var b := Block(l.src, l.ticket, l.sent);
    var s1 := s.(x := s.x.(activeSend := None));
    if l.job.at == Returned(true) {
      SettledThenTopIsTransfers(s, s1.(x := s1.x.(pendingAck := Some(l.src.id))), id, b, None);
    } else {
      var reason := WhyFailed(s, l.job);
      SettledThenTopIsTransfers(s, s1, id, b, Some(reason));
    }
  }

  lemma JobRunsOnIsTransfers(s: S, id: nat, buffered: int)
    requires id in s.x.loops && JobCanRun(s.x.loops[id])
    ensures SameButTransfers(s, JobRunsOn(s, id, buffered))
  {
  }

  lemma LoopIsTransfers(s: S, id: nat, readOk: bool, buffered: int)
    requires LoopCanRun(s, id)
    ensures SameButTransfers(s, LoopRuns(s, id, readOk, buffered))
  {
    match s.x.loops[id] {
      case Reading(src, key, ticket) =>
        if !readOk {
          SettledThenTopIsTransfers(s, s, id, Block(src, ticket, []), Some(Failed));
        }
      case Exiting =>
      case Running(_, _, _, job, _, _) =>
        if Suspended(job) {
          JobRunsOnIsTransfers(s, id, buffered);
        } else {
          JobEndedIsTransfers(s, id);
        }
    }
  }

  lemma SendFileIsTransfers(s: S, src: Source)
    ensures SameButTransfers(s, SendFile(s, src))
  {
    if CanSend(s) && 0 < |src.bytes| <= MAX_FILE_BYTES && !s.x.draining {
      var x1 := s.x.(queue := s.x.queue + [Queued(src, |s.x.returned|)], returned := s.x.returned + [src.id]);
      LoopTopIsTransfers(s.(x := x1.(draining := true, nextLoop := x1.nextLoop + 1)), x1.nextLoop);
    }
  }

  lemma CancelInQueueIsTransfers(s: S, id: string)
    ensures SameButTransfers(s, CancelInQueue(s, id))
  {
  }

  lemma CancelReceiveIsTransfers(s: S, id: string)
    ensures SameButTransfers(s, CancelReceive(s, id))
  {
    FailedReceiveIsTransfers(s, id, Cancelled);
  }

  lemma CancelAckIsTransfers(s: S, id: string)
    ensures SameButTransfers(s, CancelPendingAck(s, id, Cancelled))
  {
  }

  lemma CancelIsTransfers(s: S, id: string)
    ensures SameButTransfers(s, CancelFile(s, id))
  {
    if ActiveId(s.x) != Some(id) {
      var s1 := CancelInQueue(s, id);
      var s2 := CancelReceive(s1, id);
      CancelInQueueIsTransfers(s, id);
      CancelReceiveIsTransfers(s1, id);
      CancelAckIsTransfers(s2, id);
      SameButTransfersChains(s, s1, s2);
      SameButTransfersChains(s, s2, CancelPendingAck(s2, id, Cancelled));
    }
  }

  // ---- every step, every run ----

  /** Every step keeps the invariant, and ended is absorbing. */
  lemma NextKeepsInv(hash: seq<byte> -> string, s: S, a: Action)
    requires Inv(s) && Enabled(s, a)
    ensures Inv(Next(hash, s, a)) && (s.status == Ended ==> Next(hash, s, a).status == Ended)
  {
    if a.Deliver? {
      EventKeepsInv(s, a.event, a.now);
    } else if a.HandlerRuns? {
      HandlerKeepsInv(hash, s, a.priv, a.now);
    } else if IsQueueStep(a) || a.AppSends? {
      TransferStepKeepsInv(hash, s, a);
    } else {
      CallKeepsInv(hash, s, a);
    }
  }

  /** The calls from outside: the user, timers, and promises that settle. */
  lemma CallKeepsInv(hash: seq<byte> -> string, s: S, a: Action)
    requires Inv(s) && Enabled(s, a) && !a.Deliver? && !a.HandlerRuns? && !IsQueueStep(a) && !a.AppSends?
    ensures Inv(Next(hash, s, a)) && (s.status == Ended ==> Next(hash, s, a).status == Ended)
  {
    match a {
      case EndCalled => EndKeepsInv(s);
      case EndTailRuns => EndTailKeepsInv(s);
      case TimerFired(t, now) => TimerKeepsInv(s, t, now);
      case Woken(now) => WakeKeepsInv(s, now);
      case ConnectDone(ok) => ConnectKeepsInv(s, ok);
      case ChannelIs(open) => QuietKeepsEndsOnce(s, s.(dataOpen := open));
    }
  }

  lemma WakeKeepsInv(s: S, now: int)
    requires Inv(s)
    ensures Inv(Wake(s, now)) && (s.status == Ended ==> Wake(s, now).status == Ended)
  {
    if s.status != Ended && s.timers.rejoin.Some? {
      RejoinTimerKeepsInv(s, now);
    }
  }

  lemma TransferStepKeepsInv(hash: seq<byte> -> string, s: S, a: Action)
    requires Inv(s) && Enabled(s, a)
    requires IsQueueStep(a) || a.AppSends?
    ensures Inv(Next(hash, s, a)) && Next(hash, s, a).status == s.status
  {
    if a.AppSends? {
      AppIsTransfers(s, a.payload);
    } else {
      QueueStepIsTransfers(hash, s, a);
    }
    TransfersKeepInv(s, Next(hash, s, a));
  }

  lemma AppIsTransfers(s: S, p: Message)
    ensures SameButTransfers(s, SendApp(s, p))
  {
  }

  lemma QueueStepIsTransfers(hash: seq<byte> -> string, s: S, a: Action)
    requires Enabled(s, a) && IsQueueStep(a)
    ensures SameButTransfers(s, Next(hash, s, a))
  {
    match a {
      case FileOffered(src) => SendFileIsTransfers(s, src);
      case FileCancelled(id) => CancelIsTransfers(s, id);
      case LoopRunsOn(id, readOk, buffered) => LoopIsTransfers(s, id, readOk, buffered);
      case ChannelDrained =>
    }
  }

  lemma FreshInv(secret: nat, inviteWindowMs: int, graceDurationMs: int, token: Option<Token>)
    ensures Inv(Fresh(secret, inviteWindowMs, graceDurationMs, token))
  {
  }

  lemma {:induction false} RunKeepsInv(hash: seq<byte> -> string, s: S, actions: seq<Action>)
    requires Inv(s) && IsRun(hash, s, actions)
    ensures Inv(Run(hash, s, actions)) && (s.status == Ended ==> Run(hash, s, actions).status == Ended)
    decreases |actions|
  {
    if actions != [] {
      NextKeepsInv(hash, s, actions[0]);
      RunKeepsInv(hash, Next(hash, s, actions[0]), actions[1..]);
    }
  }

  predicate HasTimer(t: Timers, kind: TimerKind) {
    exists id :: id in t.pending && t.pending[id] == kind
  }

  /** Over every run of a new session: a secure session holds a key, a safety
      code and a confirmed transcript of one exchange; the grace timer is pending
      exactly while reconnecting, the confirm timer only while securing, the
      rejoin timer only while reconnecting or waiting; no two timers of a kind;
      one ended event exactly once ended, and then no timer at all. */
  lemma SessionSafe(hash: seq<byte> -> string, secret: nat, inviteWindowMs: int, graceDurationMs: int,
                    token: Option<Token>, actions: seq<Action>)
    requires IsRun(hash, Fresh(secret, inviteWindowMs, graceDurationMs, token), actions)
    ensures var s := Run(hash, Fresh(secret, inviteWindowMs, graceDurationMs, token), actions);
            && (s.status == Secure <==> s.hs.verified)
            && (s.status == Secure ==>
                  && s.hs.key.Some? && s.hs.code == Some(SafetyCode(s.secret, s.hs.key.value.shared))
                  && s.hs.expected == Some(Hash(s.hs.key.value.shared.lo, s.hs.key.value.shared.hi))
                  && s.hs.key.value.secret == s.secret)
            && (HasTimer(s.timers, GraceTick) <==> s.status == Reconnecting)
            && (HasTimer(s.timers, ConfirmTimeout) ==> s.status == Securing)
            && (HasTimer(s.timers, RejoinRetry) ==> s.status == Reconnecting || s.status == WaitingForPeer)
            && (forall i, j :: i in s.timers.pending && j in s.timers.pending && s.timers.pending[i] == s.timers.pending[j] ==> i == j)
            && EndsOnce(s)
            && (s.status == Ended ==> s.timers.pending == map[])
  {
    FreshInv(secret, inviteWindowMs, graceDurationMs, token);
    RunKeepsInv(hash, Fresh(secret, inviteWindowMs, graceDurationMs, token), actions);
    PendingMatchesStatus(Run(hash, Fresh(secret, inviteWindowMs, graceDurationMs, token), actions));
  }

  lemma PendingMatchesStatus(s: S)
    requires Inv(s)
    ensures HasTimer(s.timers, GraceTick) <==> s.status == Reconnecting
    ensures HasTimer(s.timers, ConfirmTimeout) ==> s.status == Securing
    ensures HasTimer(s.timers, RejoinRetry) ==> s.status == Reconnecting || s.status == WaitingForPeer
    ensures s.status == Ended ==> s.timers.pending == map[]
    ensures s.status == Secure ==> s.hs.key.Some? && KeysOk(s.secret, s.hs)
  {
    assert s.status == Ended ==> forall id :: id !in s.timers.pending;
  }

  // ---- logs only grow ----

  ghost function Extends(log: Log): Property {
    (s: S) => log <= s.log
  }

  lemma ExtendsIsClosed(log: Log)
    ensures ClosedUnderHandler(Extends(log)) && ClosedUnderSecuring(Extends(log)) && ClosedUnderTokens(Extends(log))
  {
    forall s: S | log <= s.log ensures log <= FailAllTransfers(s).log {
      FailAllIsQuiet(s);
    }
    forall s: S | log <= s.log ensures log <= BecomeSecure(s).log {
      SecuringGrowsLog(s);
    }
    forall s: S, reason | s.x.pendingAck.Some? && log <= s.log ensures log <= AckFailed(s, reason).log {
      EmitGrowsLog(s, FileFailed(s.x.pendingAck.value, Outgoing, reason));
    }
  }

  lemma EmitGrowsLog(s: S, e: Event)
    ensures s.log <= Emits(s, e).log
  {
  }

  lemma SecuringGrowsLog(s: S)
    ensures s.log <= BecomeSecure(s).log
  {
  }

  lemma LogGrows(hash: seq<byte> -> string, s: S, a: Action)
    requires Enabled(s, a)
    ensures s.log <= Next(hash, s, a).log
  {
    if IsQueueStep(a) {
      QueueStepIsTransfers(hash, s, a);
    } else if !IsSendStep(a) {
      ExtendsIsClosed(s.log);
      StepKeeps(Extends(s.log), hash, s, a);
    }
  }

  // ---- becoming secure ----

  lemma {:induction false} RunGrowsLog(hash: seq<byte> -> string, s: S, actions: seq<Action>)
    requires IsRun(hash, s, actions)
    ensures s.log <= Run(hash, s, actions).log
    decreases |actions|
  {
    if actions != [] {
      LogGrows(hash, s, actions[0]);
      RunGrowsLog(hash, Next(hash, s, actions[0]), actions[1..]);
    }
  }

  lemma FinishSecuresNothing(s: S, reason: EndReason, close: bool)
    ensures FinishSession(s, reason, close).status == Ended && FailHandshake(s, reason).status == Ended
  {
  }

  ghost function NotSecure(): Property {
    (s: S) => s.status != Secure
  }

  lemma NotSecureIsClosed()
    ensures ClosedUnderHandler(NotSecure()) && ClosedUnderTokens(NotSecure())
  {
  }

  /** A session becomes secure only by opening, under its own key, a key-confirm
      that carries the transcript it computed itself. */
  lemma SecureOnlyByConfirm(hash: seq<byte> -> string, s: S, a: Action)
    requires Inv(s) && Enabled(s, a)
    requires s.status != Secure && Next(hash, s, a).status == Secure
    ensures a.HandlerRuns? && s.status == Securing
    ensures && s.handler.Busy? && s.handler.aw.Decrypting? && s.hs.key.Some? && s.hs.expected.Some?
            && s.handler.aw.cipher == Sealed(s.hs.key.value, KeyConfirm(s.hs.expected.value))
  {
    if IsSendStep(a) {
      SendStepSecuresNothing(hash, s, a);
    } else {
      NotSecureIsClosed();
      if !(a.HandlerRuns? && FrameConfirms(s)) {
        StepKeeps(NotSecure(), hash, s, a);
      }
    }
  }

  lemma SendStepSecuresNothing(hash: seq<byte> -> string, s: S, a: Action)
    requires Enabled(s, a) && IsSendStep(a)
    ensures Next(hash, s, a).status == s.status && Next(hash, s, a).hs == s.hs && Next(hash, s, a).handler == s.handler
  {
    if IsQueueStep(a) {
      QueueStepIsTransfers(hash, s, a);
    }
  }

  // ---- what end() leaves behind ----

  /** end() does not wait for the handler: one that is deriving a key stores it
      afterwards, so an ended session can hold a live key. */
  lemma StaleKeySurvivesEnd(hash: seq<byte> -> string) returns (s: S)
    ensures Reaches(hash, Fresh(7, 600_000, 120_000, None), s)
    ensures s.status == Ended && s.hs.key == Some(Key(7, Shared(1, 2)))
  {
    var s0 := Fresh(7, 600_000, 120_000, None);
    var s1 := FreshOpens(hash, Anything(), 7, 1);
    var s2 := DerivesWith(hash, s0, s1, 2);
    s := EndsWhileDeriving(hash, s2, 2, Shared(1, 2));
    LeadsOn(hash, Anything(), s0, s2, s);
    LeadsReaches(hash, Anything(), s0, s);
  }

  lemma EndsWhileDeriving(hash: seq<byte> -> string, s: S, peer: nat, shared: SharedSecret) returns (t: S)
    requires s.status == Securing && s.handler == Busy(DerivingKey(peer, shared))
    ensures Leads(hash, Anything(), s, t) && t.status == Ended && t.hs.key == Some(Key(s.secret, shared))
  {
    LeadsBy(hash, Anything(), s, EndCalled);
    t := EndSession(s);
    LeadsNext(hash, Anything(), s, t, HandlerRuns(0, 0));
    t := Next(hash, t, HandlerRuns(0, 0));
  }

  /** The peer's key arrives and the shared secret is there. */
  lemma DerivesWith(hash: seq<byte> -> string, s0: S, s: S, peer: nat) returns (t: S)
    requires Leads(hash, Anything(), s0, s) && KeyIsSent(s)
    ensures Leads(hash, Anything(), s0, t)
    ensures t == s.(handler := Busy(DerivingKey(peer, DH(s.hs.keyPair.value, peer))))
  {
    ImportReached(hash, Anything(), s, peer);
    t := s.(handler := Busy(Sharing(peer, DH(s.hs.keyPair.value, peer))));
    LeadsOn(hash, Anything(), s0, s, t);
    LeadsNext(hash, Anything(), s0, t, HandlerRuns(0, 0));
    t := Next(hash, t, HandlerRuns(0, 0));
  }

  /** The handler is about to store a session key. */
  predicate AboutToKey(h: Handler) {
    h.Busy? && (h.aw.Sharing? || h.aw.DerivingKey?)
  }

  /** An ended session that holds no key gets one if and only if its handler was
      deriving the shared secret or the key when it ended; wherever else the
      handler was, and whatever happens afterwards, it never holds one again. */
  lemma EndedGetsKeyIffDeriving(hash: seq<byte> -> string, s: S)
    requires Inv(s) && s.status == Ended && s.hs.key.None?
    ensures (exists t :: Reaches(hash, s, t) && t.hs.key.Some?) <==> AboutToKey(s.handler)
  {
    if AboutToKey(s.handler) {
      DerivingStoresKey(hash, s);
    } else {
      forall t | Reaches(hash, s, t) ensures t.hs.key.None? {
        var actions :| IsRun(hash, s, actions) && Run(hash, s, actions) == t;
        EndedHoldsNoKey(hash, s, actions);
      }
    }
  }

  lemma DerivingStoresKey(hash: seq<byte> -> string, s: S)
    requires AboutToKey(s.handler)
    ensures exists t :: Reaches(hash, s, t) && t.hs.key.Some?
  {
    var shared := s.handler.aw.shared;
    var s1 := s.(handler := Busy(DerivingKey(s.handler.aw.peer, shared)));
    var t := s.(hs := s.hs.(key := Some(Key(s.secret, shared))), handler := Busy(DerivingCode(s.handler.aw.peer, shared)));
    LeadsBy(hash, Anything(), s1, HandlerRuns(0, 0));
    if s.handler.aw.Sharing? {
      LeadsBy(hash, Anything(), s, HandlerRuns(0, 0));
      LeadsOn(hash, Anything(), s, s1, t);
    } else {
      assert s1 == s;
    }
    LeadsReaches(hash, Anything(), s, t);
  }

  lemma {:induction false} EndedHoldsNoKey(hash: seq<byte> -> string, s: S, actions: seq<Action>)
    requires Inv(s) && IsRun(hash, s, actions)
    requires s.status == Ended && s.hs.key.None? && !AboutToKey(s.handler)
    ensures var r := Run(hash, s, actions); r.status == Ended && r.hs.key.None?
    decreases |actions|
  {
    if actions != [] {
      NextKeepsInv(hash, s, actions[0]);
      EndedStepStoresNoKey(hash, s, actions[0]);
      EndedHoldsNoKey(hash, Next(hash, s, actions[0]), actions[1..]);
    }
  }

  lemma EndedStepStoresNoKey(hash: seq<byte> -> string, s: S, a: Action)
    requires Inv(s) && Enabled(s, a)
    requires s.status == Ended && s.hs.key.None? && !AboutToKey(s.handler)
    ensures var r := Next(hash, s, a); r.hs.key.None? && !AboutToKey(r.handler)
  {
    if IsSendStep(a) {
      SendStepSecuresNothing(hash, s, a);
    } else if a.HandlerRuns? {
      if Handshaking(s.handler) {
        EndedHandshakeStoresNoKey(hash, s, a.priv, a.now);
      } else {
        EndedResumeKeepsKey(hash, s, a.priv, a.now);
      }
    }
  }

  /** Every other await of the handshake leads on without a key, or fails. */
  lemma EndedHandshakeStoresNoKey(hash: seq<byte> -> string, s: S, priv: nat, now: int)
    requires Inv(s) && Handshaking(s.handler) && !AboutToKey(s.handler)
    requires s.status == Ended && s.hs.key.None?
    ensures var r := ResumeHandler(hash, s, priv, now); r.hs.key.None? && !AboutToKey(r.handler)
  {
  }

  lemma EndedResumeKeepsKey(hash: seq<byte> -> string, s: S, priv: nat, now: int)
    requires Inv(s) && s.handler.Busy? && !Handshaking(s.handler)
    requires s.status == Ended && s.hs.key.None?
    ensures var r := ResumeHandler(hash, s, priv, now); r.hs == s.hs && !AboutToKey(r.handler)
  {
    match s.handler.aw {
      case Decrypting(key, cipher, rest) => EndedDecryptKeepsKey(s, key, cipher, rest, now);
      case AcceptingChunk(job, frame) => EndedChunkKeepsKey(s, job, frame);
      case _ =>
    }
  }

  lemma EndedChunkKeepsKey(s: S, job: ReceiveJob, frame: Binary)
    requires s.status == Ended
    ensures AfterChunk(s, job, frame).hs == s.hs && AfterChunk(s, job, frame).handler == Idle
  {
  }

  lemma EndedDecryptKeepsKey(s: S, key: Key, cipher: Cipher, rest: seq<Cipher>, now: int)
    requires s.status == Ended && s.hs.key.None? && s.hs.expected.None? && !s.hs.verified
    ensures var r := AfterDecrypt(s, key, cipher, rest, now); r.hs == s.hs && r.handler == Idle
  {
    var p := Decrypt(key, cipher);
    if p.Some? && !p.value.FileDone? {
      EndedPayloadKeepsKey(s.(handler := Idle), p.value, now);
    }
  }

  lemma EndedPayloadKeepsKey(s: S, p: Message, now: int)
    requires s.status == Ended && s.hs.expected.None? && !s.hs.verified && !p.FileDone?
    ensures HandlePayload(s, p, now).hs == s.hs
  {
  }
}
