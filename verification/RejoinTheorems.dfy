/** Grace and rejoin: one countdown that never moves, and a bounded number of
    retries. */
module RejoinTheorems {
  import opened Wrappers
  import opened Protocol
  import opened Base64url
  import opened Wire
  import opened FileTransfer
  import opened Session
  import opened SessionSteps
  import opened HandlerSteps
  import opened SessionInvariants

  // ---- tokens ----

  predicate SameTokens(s: S, s': S) {
    s'.token == s.token && s'.retriesLeft == s.retriesLeft
  }

  ghost function HoldsTokens(token: Option<Token>, retriesLeft: nat): Property {
    (s: S) => s.token == token && s.retriesLeft == retriesLeft
  }

  lemma HoldsTokensIsClosed(token: Option<Token>, retriesLeft: nat)
    ensures ClosedUnderHandler(HoldsTokens(token, retriesLeft)) && ClosedUnderSecuring(HoldsTokens(token, retriesLeft))
  {
  }

  /** The events that carry a token, and the error that spends a retry. */
  predicate BringsTokens(a: Action) {
    a.Deliver? && TouchesTokens(a.event)
  }

  lemma OtherStepKeepsTokens(hash: seq<byte> -> string, s: S, a: Action)
    requires Enabled(s, a) && !BringsTokens(a)
    ensures SameTokens(s, Next(hash, s, a))
  {
    if a.FileOffered? {
      SendFileIsTransfers(s, a.src);
    } else if a.FileCancelled? {
      CancelIsTransfers(s, a.id);
    } else if a.LoopRunsOn? {
      LoopIsTransfers(s, a.loop, a.readOk, a.buffered);
    } else if !IsSendStep(a) {
      HoldsTokensIsClosed(s.token, s.retriesLeft);
      OtherStepKeeps(HoldsTokens(s.token, s.retriesLeft), hash, s, a);
    }
  }

  /** A token event stores the newest token, with a full budget if it is new. */
  lemma TokenStep(s: S, e: TransportEvent, now: int)
    requires s.status != Ended && (e.RoomCreated? || e.RoomJoined? || e.PeerCame?)
    ensures var r := HandleEvent(s, e, now);
            && (if e.token.None? || e.token == s.token then SameTokens(s, r) else r.token == e.token && r.retriesLeft == 2)
            && SameCountdown(s, r)
  {
  }

  lemma ErrorStep(s: S, code: ErrorCode)
    requires s.status != Ended
    ensures var r := HandleServerError(s, code);
            && r.token == s.token
            && (r.status != Ended ==>
                  && code == RoomNotFound && s.token.Some? && RejoinAllowed(s) && s.retriesLeft > 0
                  && r.retriesLeft == s.retriesLeft - 1 && r.timers.rejoin.Some? && SameCountdown(s, r))
            && (r.status == Ended ==> r.retriesLeft == s.retriesLeft)
  {
    HoldsTokensIsClosed(s.token, s.retriesLeft);
    FinishKeeps(HoldsTokens(s.token, s.retriesLeft), s, ServerErrorReason(s, code), true);
  }

  // ---- the countdown ----

  /** A session still reconnecting is under the same countdown. */
  predicate SameCountdown(s: S, s': S) {
    s.status == Reconnecting && s'.status == Reconnecting ==>
      s'.graceDeadline == s.graceDeadline && s'.timers.grace == s.timers.grace
  }

  lemma RejoinKeepsCountdown(s: S, now: int)
    ensures SameCountdown(s, RejoinTimerFired(s, now)) && SameCountdown(s, RejoinOrExpire(s, now))
  {
    FinishSecuresNothing(s, InviteRanOut, true);
  }

  lemma TimerKeepsCountdown(s: S, t: nat, now: int)
    requires t in s.timers.pending
    ensures SameCountdown(s, TimerFires(s, t, now))
  {
    if s.timers.pending[t] == GraceTick {
      FinishSecuresNothing(s, GraceRanOut, true);
    } else if s.timers.pending[t] == ConfirmTimeout {
      FinishSecuresNothing(s.(timers := s.timers.(pending := s.timers.pending - {t})), KeyConfirmFailed, true);
    } else {
      RejoinKeepsCountdown(s.(timers := s.timers.(pending := s.timers.pending - {t}, rejoin := None)), now);
    }
  }

  lemma WakeKeepsCountdown(s: S, now: int)
    ensures SameCountdown(s, Wake(s, now))
  {
    if s.status != Ended && s.timers.rejoin.Some? {
      RejoinKeepsCountdown(s.(timers := s.timers.(pending := ClearId(s.timers.pending, s.timers.rejoin), rejoin := None)), now);
    }
  }

  lemma TextKeepsCountdown(s: S, frame: TextFrame)
    ensures SameCountdown(s, HandleText(s, frame))
  {
    if !frame.PubFrame? && !frame.SealedFrame? {
      UnparsedKeepsCountdown(s, frame);
    }
  }

  lemma UnparsedKeepsCountdown(s: S, frame: TextFrame)
    ensures SameCountdown(s, HandleUnparsed(s, frame))
  {
  }

  lemma EventKeepsCountdown(s: S, e: TransportEvent, now: int)
    requires s.status == Reconnecting && !TouchesTokens(e)
    ensures SameCountdown(s, HandleEvent(s, e, now))
  {
    match e {
      case DataText(frame) => TextKeepsCountdown(s, frame);
      case RoomGone(reason) => FinishSecuresNothing(s, ReasonFor(reason), true);
      case _ =>
    }
  }

  lemma ReconnectingIsIdle(s: S)
    requires Inv(s) && s.status == Reconnecting
    ensures s.handler == Idle
  {
  }

  /** The countdown of a grace period is set once, when it is entered, and no
      step that leaves the session reconnecting moves or restarts it. */
  lemma GraceDeadlineNeverMoves(hash: seq<byte> -> string, s: S, a: Action)
    requires Inv(s) && Enabled(s, a) && s.status == Reconnecting && Next(hash, s, a).status == Reconnecting
    ensures Next(hash, s, a).graceDeadline == s.graceDeadline && Next(hash, s, a).timers.grace == s.timers.grace
  {
    ReconnectingIsIdle(s);
    if BringsTokens(a) {
      if a.event.ServerSays? { ErrorStep(s, a.event.code); } else { TokenStep(s, a.event, a.now); }
    } else if a.Deliver? {
      EventKeepsCountdown(s, a.event, a.now);
    } else if a.EndCalled? {
      EndKeepsInv(s);
    } else if a.TimerFired? {
      TimerKeepsCountdown(s, a.timer, a.now);
    } else if a.Woken? {
      WakeKeepsCountdown(s, a.now);
    } else if a.FileOffered? {
      SendFileIsTransfers(s, a.src);
    } else if a.FileCancelled? {
      CancelIsTransfers(s, a.id);
    } else if a.LoopRunsOn? {
      LoopIsTransfers(s, a.loop, a.readOk, a.buffered);
    }
  }

  /** At a tick the session ends if and only if the countdown has run out. */
  lemma GraceEndsOnTime(s: S, t: nat, now: int)
    requires Inv(s) && s.status == Reconnecting && s.timers.grace == Some(t)
    ensures t in s.timers.pending
    ensures TimerFires(s, t, now).status == Ended <==> now >= s.graceDeadline
    ensures now >= s.graceDeadline ==>
              var log := TimerFires(s, t, now).log; log != [] && log[|log| - 1] == Emit(HasEnded(GraceRanOut))
  {
  }

  // ---- the retry budget ----

  /** A step in which "room-not-found" was answered by another attempt. */
  predicate Survived(hash: seq<byte> -> string, s: S, a: Action)
    requires Enabled(s, a)
  {
    a.Deliver? && a.event == ServerSays(RoomNotFound) && Next(hash, s, a).status != Ended
  }

  lemma BudgetStep(hash: seq<byte> -> string, s: S, a: Action)
    requires Inv(s) && Enabled(s, a) && Next(hash, s, a).token == s.token
    ensures Next(hash, s, a).retriesLeft == s.retriesLeft - if Survived(hash, s, a) then 1 else 0
  {
    if !BringsTokens(a) {
      OtherStepKeepsTokens(hash, s, a);
    } else if s.status != Ended {
      if a.event.ServerSays? {
        ErrorStep(s, a.event.code);
      } else {
        TokenStep(s, a.event, a.now);
      }
    }
  }

  /** No step of the run brings a new token. */
  predicate SameTokenThroughout(hash: seq<byte> -> string, s: S, actions: seq<Action>)
    requires IsRun(hash, s, actions)
    decreases |actions|
  {
    actions == [] || (Next(hash, s, actions[0]).token == s.token
                      && SameTokenThroughout(hash, Next(hash, s, actions[0]), actions[1..]))
  }

  function Retries(hash: seq<byte> -> string, s: S, actions: seq<Action>): nat
    requires IsRun(hash, s, actions)
    decreases |actions|
  {
    if actions == [] then 0
    else (if Survived(hash, s, actions[0]) then 1 else 0) + Retries(hash, Next(hash, s, actions[0]), actions[1..])
  }

  lemma {:induction false} BudgetIsSpent(hash: seq<byte> -> string, s: S, actions: seq<Action>)
    requires Inv(s) && IsRun(hash, s, actions) && SameTokenThroughout(hash, s, actions)
    ensures Run(hash, s, actions).retriesLeft == s.retriesLeft - Retries(hash, s, actions)
    decreases |actions|
  {
    if actions != [] {
      BudgetStep(hash, s, actions[0]);
      NextKeepsInv(hash, s, actions[0]);
      BudgetIsSpent(hash, Next(hash, s, actions[0]), actions[1..]);
    }
  }

  lemma BudgetAtMostTwo(hash: seq<byte> -> string, s: S, a: Action)
    requires Inv(s) && Enabled(s, a) && s.retriesLeft <= 2
    ensures Next(hash, s, a).retriesLeft <= 2
  {
    if !BringsTokens(a) {
      OtherStepKeepsTokens(hash, s, a);
    } else if s.status != Ended {
      if a.event.ServerSays? {
        ErrorStep(s, a.event.code);
      } else {
        TokenStep(s, a.event, a.now);
      }
    }
  }

  lemma {:induction false} RunBudgetAtMostTwo(hash: seq<byte> -> string, s: S, actions: seq<Action>)
    requires Inv(s) && IsRun(hash, s, actions) && s.retriesLeft <= 2
    ensures Run(hash, s, actions).retriesLeft <= 2
    decreases |actions|
  {
    if actions != [] {
      BudgetAtMostTwo(hash, s, actions[0]);
      NextKeepsInv(hash, s, actions[0]);
      RunBudgetAtMostTwo(hash, Next(hash, s, actions[0]), actions[1..]);
    }
  }

  /** Between two new tokens a session answers "room-not-found" with another
      attempt at most twice, over every run before and after. */
  lemma AtMostTwoRetriesPerToken(hash: seq<byte> -> string, secret: nat, inviteWindowMs: int, graceDurationMs: int,
                                 token: Option<Token>, before: seq<Action>, actions: seq<Action>)
    requires IsRun(hash, Fresh(secret, inviteWindowMs, graceDurationMs, token), before)
    requires var s := Run(hash, Fresh(secret, inviteWindowMs, graceDurationMs, token), before);
             IsRun(hash, s, actions) && SameTokenThroughout(hash, s, actions)
    ensures Retries(hash, Run(hash, Fresh(secret, inviteWindowMs, graceDurationMs, token), before), actions) <= 2
  {
    var s0 := Fresh(secret, inviteWindowMs, graceDurationMs, token);
    FreshInv(secret, inviteWindowMs, graceDurationMs, token);
    RunKeepsInv(hash, s0, before);
    RunBudgetAtMostTwo(hash, s0, before);
    BudgetIsSpent(hash, Run(hash, s0, before), actions);
  }
}
