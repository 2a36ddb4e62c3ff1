/** What the machine of module Lifecycle means for a session: how long grace lasts,
    what a retry does, and that the status was always announced. */
module LifeTheorems {
  import opened Wrappers
  import opened Protocol
  import opened Base64url
  import opened Wire
  import opened FileTransfer
  import opened Session
  import opened SessionSteps
  import opened SessionInvariants
  import opened Reachability
  import opened Lifecycle
  import RejoinTheorems
  import ReceiveReports

  // ---- grace ----

  /** The peer, the channel to it, or the signaling connection is lost. */
  predicate Loses(e: TransportEvent) {
    e.PeerWent? || e.DataLost? || e.SignalingDown?
  }

  /** From a secure session, or one about to be, losing the peer begins the whole grace
      period, and says so; another attempt at the signaling server is begun exactly if
      that was what was lost. */
  lemma LossBeginsGrace(hash: seq<byte> -> string, s: S, e: TransportEvent, now: int)
    requires Inv(s) && Enabled(s, Deliver(e, now)) && Loses(e) && (s.status == Secure || s.status == Securing)
    ensures var r := HandleEvent(s, e, now);
            && r.status == Reconnecting && r.graceDeadline == now + s.graceDurationMs
            && r.connects == s.connects + (if e.SignalingDown? then 1 else 0)
            && r.timers.grace.Some? && r.timers.grace.value in r.timers.pending
            && r.timers.pending[r.timers.grace.value] == GraceTick
            && r.token == s.token && r.waitingDeadline == s.waitingDeadline && r.graceDurationMs == s.graceDurationMs
            && Life(r.log) == Life(s.log) + [Emit(StatusIs(Reconnecting)), Emit(GraceCountdown(s.graceDurationMs))]
  {
    hide HandleEvent, Life;
    var a := Deliver(e, now);
    StepFollows(hash, s, a);
    NextKeepsInv(hash, s, a);
    GraceIsPending(Next(hash, s, a));
  }

  lemma GraceIsPending(s: S)
    requires Inv(s) && s.status == Reconnecting
    ensures s.timers.grace.Some? && s.timers.grace.value in s.timers.pending
    ensures s.timers.pending[s.timers.grace.value] == GraceTick
  {
  }

  /** All along the run the session is reconnecting. */
  predicate StaysReconnecting(hash: seq<byte> -> string, s: S, actions: seq<Action>)
    requires IsRun(hash, s, actions)
    decreases |actions|
  {
    && s.status == Reconnecting
    && (actions == [] || StaysReconnecting(hash, Next(hash, s, actions[0]), actions[1..]))
  }

  lemma {:induction false} DeadlineStays(hash: seq<byte> -> string, s: S, actions: seq<Action>)
    requires Inv(s) && IsRun(hash, s, actions) && StaysReconnecting(hash, s, actions)
    ensures var t := Run(hash, s, actions); Inv(t) && t.status == Reconnecting && t.graceDeadline == s.graceDeadline
    decreases |actions|
  {
    if actions != [] {
      var s1 := Next(hash, s, actions[0]);
      assert s1.status == Reconnecting;
      RejoinTheorems.GraceDeadlineNeverMoves(hash, s, actions[0]);
      NextKeepsInv(hash, s, actions[0]);
      DeadlineStays(hash, s1, actions[1..]);
    }
  }

  /** Grace lasts as long as it was to last: of a session that lost its peer at `t0` and
      has been reconnecting ever since, whatever else happened, a tick ends it if and
      only if its grace period, as it was at `t0`, is over. */
  lemma GraceLasts(hash: seq<byte> -> string, s: S, e: TransportEvent, t0: int, actions: seq<Action>, now: int)
    requires Inv(s) && Enabled(s, Deliver(e, t0)) && Loses(e) && (s.status == Secure || s.status == Securing)
    requires var r := HandleEvent(s, e, t0); IsRun(hash, r, actions) && StaysReconnecting(hash, r, actions)
    ensures var u := Run(hash, HandleEvent(s, e, t0), actions);
            && u.timers.grace.Some? && Enabled(u, TimerFired(u.timers.grace.value, now))
            && var v := Next(hash, u, TimerFired(u.timers.grace.value, now));
               if now >= t0 + s.graceDurationMs
               then v.status == Ended && Life(v.log) == Life(u.log) + [Emit(StatusIs(Ended)), Emit(HasEnded(GraceRanOut))]
               else v.status == Reconnecting && Life(v.log) == Life(u.log) + [Emit(GraceCountdown(t0 + s.graceDurationMs - now))]
  {
    hide Life, TimerFires, HandleEvent, Inv, Lives;
    var r := HandleEvent(s, e, t0);
    LossBeginsGrace(hash, s, e, t0);
    NextKeepsInv(hash, s, Deliver(e, t0));
    DeadlineStays(hash, r, actions);
    var u := Run(hash, r, actions);
    GraceIsPending(u);
    TickAnswers(hash, u, u.timers.grace.value, now);
  }

  /** Grace does not begin twice: a session that is reconnecting only sees to it that a
      retry is parked, if it is the one that lost its signaling. */
  lemma GraceBeginsOnce(s: S, needsRejoin: bool, now: int)
    requires s.status == Reconnecting
    ensures var r := EnterGrace(s, needsRejoin, now);
            && r == s.(timers := r.timers)
            && (r.timers.rejoin.Some? <==> s.timers.rejoin.Some? || needsRejoin)
            && (s.timers.rejoin.Some? || !needsRejoin ==> r == s)
  {
  }

  /** A tick ends the session once its deadline has come, and until then says how long
      it still is. */
  lemma TickAnswers(hash: seq<byte> -> string, s: S, t: nat, now: int)
    requires Inv(s) && s.status == Reconnecting && t in s.timers.pending && s.timers.pending[t] == GraceTick
    ensures var v := TimerFires(s, t, now);
            if now >= s.graceDeadline
            then v.status == Ended && Life(v.log) == Life(s.log) + [Emit(StatusIs(Ended)), Emit(HasEnded(GraceRanOut))]
            else v.status == Reconnecting && Life(v.log) == Life(s.log) + [Emit(GraceCountdown(s.graceDeadline - now))]
  {
    hide Life, TimerFires;
    StepFollows(hash, s, TimerFired(t, now));
  }

  lemma MachineGraces(p: Phase, x: Signal)
    requires p.status != Reconnecting && Moves(p, x).0.status == Reconnecting
    ensures (x.OtherLost? || x.ServerLost?) && (p.status == Secure || p.status == Securing)
  {
  }

  lemma LossSignal(s: S, a: Action)
    requires Enabled(s, a) && (SignalOf(s, a).OtherLost? || SignalOf(s, a).ServerLost?)
    ensures a.Deliver? && Loses(a.event)
  {
  }

  /** Only a loss begins grace: a session that is reconnecting got there by one. */
  lemma OnlyLossBeginsGrace(hash: seq<byte> -> string, s: S, a: Action)
    requires Inv(s) && Enabled(s, a) && s.status != Reconnecting && Next(hash, s, a).status == Reconnecting
    ensures a.Deliver? && Loses(a.event) && (s.status == Secure || s.status == Securing)
  {
    hide Life, Next, Moves, SignalOf;
    StepFollows(hash, s, a);
    MachineGraces(PhaseOf(s), SignalOf(s, a));
    LossSignal(s, a);
  }

  lemma {:induction false} RunSplit(hash: seq<byte> -> string, s: S, actions: seq<Action>)
    requires IsRun(hash, s, actions) && actions != []
    ensures var front, a := actions[..|actions| - 1], actions[|actions| - 1];
            && IsRun(hash, s, front) && Enabled(Run(hash, s, front), a)
            && Run(hash, s, actions) == Next(hash, Run(hash, s, front), a)
    decreases |actions|
  {
    if |actions| > 1 {
      RunSplit(hash, Next(hash, s, actions[0]), actions[1..]);
      assert actions[1..][..|actions| - 2] == actions[..|actions| - 1][1..];
    } else {
      assert actions[..0] == [];
    }
  }

  /** The run lost its peer at step `i`, when it was as in `at`, and has been
      reconnecting ever since. */
  predicate LostAt(hash: seq<byte> -> string, s: S, actions: seq<Action>, i: nat, at: S)
    requires IsRun(hash, s, actions)
  {
    && i < |actions| && IsRun(hash, s, actions[..i]) && Run(hash, s, actions[..i]) == at
    && Enabled(at, actions[i]) && actions[i].Deliver? && Loses(actions[i].event)
    && (at.status == Secure || at.status == Securing)
    && IsRun(hash, Next(hash, at, actions[i]), actions[i + 1..])
    && StaysReconnecting(hash, Next(hash, at, actions[i]), actions[i + 1..])
    && Run(hash, Next(hash, at, actions[i]), actions[i + 1..]) == Run(hash, s, actions)
  }

  lemma {:induction false} StaysOn(hash: seq<byte> -> string, s: S, actions: seq<Action>, a: Action)
    requires IsRun(hash, s, actions) && StaysReconnecting(hash, s, actions)
    requires Enabled(Run(hash, s, actions), a) && Next(hash, Run(hash, s, actions), a).status == Reconnecting
    ensures IsRun(hash, s, actions + [a]) && StaysReconnecting(hash, s, actions + [a])
    ensures Run(hash, s, actions + [a]) == Next(hash, Run(hash, s, actions), a)
    decreases |actions|
  {
    if actions == [] {
      assert [] + [a] == [a] && [a][1..] == [];
    } else {
      StaysOn(hash, Next(hash, s, actions[0]), actions[1..], a);
      assert (actions + [a])[1..] == actions[1..] + [a];
    }
  }

  lemma LostBefore(hash: seq<byte> -> string, s: S, front: seq<Action>, a: Action, i: nat, at: S)
    requires IsRun(hash, s, front) && LostAt(hash, s, front, i, at)
    requires IsRun(hash, s, front + [a]) && Enabled(Run(hash, s, front), a)
    requires Run(hash, s, front + [a]) == Next(hash, Run(hash, s, front), a)
    requires Next(hash, Run(hash, s, front), a).status == Reconnecting
    ensures LostAt(hash, s, front + [a], i, at)
  {
    hide Enabled, Next;
    StaysOn(hash, Next(hash, at, front[i]), front[i + 1..], a);
    assert (front + [a])[..i] == front[..i] && (front + [a])[i] == front[i];
    assert (front + [a])[i + 1..] == front[i + 1..] + [a];
  }

  lemma LostNow(hash: seq<byte> -> string, s: S, front: seq<Action>, a: Action)
    requires IsRun(hash, s, front) && IsRun(hash, s, front + [a]) && Enabled(Run(hash, s, front), a)
    requires Run(hash, s, front + [a]) == Next(hash, Run(hash, s, front), a)
    requires Next(hash, Run(hash, s, front), a).status == Reconnecting
    requires a.Deliver? && Loses(a.event) && Run(hash, s, front).status in {Secure, Securing}
    ensures LostAt(hash, s, front + [a], |front|, Run(hash, s, front))
  {
    hide Enabled, Next;
    var n := |front|;
    assert (front + [a])[..n] == front && (front + [a])[n + 1..] == [];
  }

  /** Over every run: a session that is reconnecting lost its peer at some step and has
      been reconnecting ever since. */
  lemma {:induction false} ReconnectingSinceLoss(hash: seq<byte> -> string, s: S, actions: seq<Action>)
    requires Inv(s) && s.status != Reconnecting && IsRun(hash, s, actions)
    requires Run(hash, s, actions).status == Reconnecting
    ensures exists i: nat, at :: LostAt(hash, s, actions, i, at)
    decreases |actions|
  {
    hide LostAt, Enabled, Next;
    var n := |actions| - 1;
    var front, a := actions[..n], actions[n];
    assert actions == front + [a];
    RunSplit(hash, s, actions);
    var u := Run(hash, s, front);
    RunKeepsInv(hash, s, front);
    if u.status == Reconnecting {
      ReconnectingSinceLoss(hash, s, front);
      var i: nat, at :| LostAt(hash, s, front, i, at);
      LostBefore(hash, s, front, a, i, at);
    } else {
      OnlyLossBeginsGrace(hash, u, a);
      LostNow(hash, s, front, a);
    }
  }

  /** Over every run: a session that a tick of the grace countdown ends had been
      reconnecting since a loss at least its grace period ago. */
  lemma GraceEndsNoEarlier(hash: seq<byte> -> string, secret: nat, inviteWindowMs: int, graceDurationMs: int,
                           token: Option<Token>, actions: seq<Action>, t: nat, now: int)
    requires var s := Fresh(secret, inviteWindowMs, graceDurationMs, token);
             && IsRun(hash, s, actions)
             && var u := Run(hash, s, actions);
                && Enabled(u, TimerFired(t, now)) && u.timers.pending[t] == GraceTick
                && Next(hash, u, TimerFired(t, now)).status == Ended
    ensures var s := Fresh(secret, inviteWindowMs, graceDurationMs, token);
            exists i: nat, at :: LostAt(hash, s, actions, i, at) && now >= actions[i].now + at.graceDurationMs
  {
    var s := Fresh(secret, inviteWindowMs, graceDurationMs, token);
    var u := Run(hash, s, actions);
    FreshInv(secret, inviteWindowMs, graceDurationMs, token);
    FreshConnects(secret, inviteWindowMs, graceDurationMs, token);
    RunKeepsInv(hash, s, actions);
    TickMeansReconnecting(u, t);
    ReconnectingSinceLoss(hash, s, actions);
    var i: nat, at :| LostAt(hash, s, actions, i, at);
    RunKeepsInv(hash, s, actions[..i]);
    SinceLoss(hash, at, actions[i].event, actions[i].now, actions[i + 1..], u);
    TickAnswers(hash, u, t, now);
  }

  lemma FreshConnects(secret: nat, inviteWindowMs: int, graceDurationMs: int, token: Option<Token>)
    ensures Fresh(secret, inviteWindowMs, graceDurationMs, token).status == Connecting
  {
  }

  lemma TickMeansReconnecting(s: S, t: nat)
    requires Inv(s) && t in s.timers.pending && s.timers.pending[t] == GraceTick
    ensures s.status == Reconnecting
  {
    PendingMatchesStatus(s);
    assert HasTimer(s.timers, GraceTick);
  }

  lemma SinceLoss(hash: seq<byte> -> string, at: S, e: TransportEvent, t0: int, actions: seq<Action>, u: S)
    requires Inv(at) && Enabled(at, Deliver(e, t0)) && Loses(e) && (at.status == Secure || at.status == Securing)
    requires IsRun(hash, HandleEvent(at, e, t0), actions) && StaysReconnecting(hash, HandleEvent(at, e, t0), actions)
    requires Run(hash, HandleEvent(at, e, t0), actions) == u
    ensures u.graceDeadline == t0 + at.graceDurationMs
  {
    hide HandleEvent;
    LossBeginsGrace(hash, at, e, t0);
    NextKeepsInv(hash, at, Deliver(e, t0));
    DeadlineStays(hash, HandleEvent(at, e, t0), actions);
  }

  // ---- retries ----

  /** A parked retry comes due, by its timer or because the tab was woken. */
  predicate Retries(s: S, a: Action)
    requires Enabled(s, a)
  {
    || (a.TimerFired? && s.timers.pending[a.timer] == RejoinRetry)
    || (a.Woken? && s.timers.rejoin.Some?)
  }

  function TimeOf(a: Action): int
    requires a.TimerFired? || a.Woken?
  {
    a.now
  }

  /** A retry is one more attempt and moves no deadline; only a session that waits to
      rejoin a room whose invite may have run out is instead ended, exactly once its
      deadline has passed. */
  lemma RetryAnswers(hash: seq<byte> -> string, s: S, a: Action)
    requires Inv(s) && Enabled(s, a) && s.status != Ended && Retries(s, a)
    ensures var r := Next(hash, s, a);
            && r.graceDeadline == s.graceDeadline && r.waitingDeadline == s.waitingDeadline && r.timers.rejoin.None?
            && (if s.waitingRejoin && TimeOf(a) >= s.waitingDeadline then
                  && r.status == Ended && r.connects == s.connects
                  && Life(r.log) == Life(s.log) + [Emit(StatusIs(Ended)), Emit(HasEnded(InviteRanOut))]
                else r.status == s.status && r.connects == s.connects + 1 && Life(r.log) == Life(s.log))
  {
    hide Life, Next, Lives, SignalOf;
    StepFollows(hash, s, a);
    RetrySignal(s, a);
    MachineRetries(PhaseOf(s), TimeOf(a));
    assert Life(s.log) + [] == Life(s.log);
  }

  lemma RetrySignal(s: S, a: Action)
    requires Enabled(s, a) && Retries(s, a)
    ensures SignalOf(s, a) == Retry(TimeOf(a))
  {
  }

  lemma MachineRetries(p: Phase, now: int)
    requires p.status != Ended
    ensures Moves(p, Retry(now)) ==
            if p.waitingRejoin && now >= p.waitingDeadline
            then (p.(status := Ended, retrying := false, confirming := false, closed := true, starting := false),
                  [Emit(StatusIs(Ended)), Emit(HasEnded(InviteRanOut))])
            else (p.(retrying := false, connects := p.connects + 1), [])
  {
  }

  // ---- start() ----

  /** start() settles once: it is let into a room, or the session ends. */
  lemma StartSettles(hash: seq<byte> -> string, s: S, a: Action)
    requires Inv(s) && Enabled(s, a)
    ensures var r := Next(hash, s, a);
            r.startPending <==>
              && s.startPending
              && !(a.Deliver? && (a.event.RoomCreated? || a.event.RoomJoined?) && s.status != Ended)
              && !(r.status == Ended && s.status != Ended)
  {
    hide Life, Next, Moves, SignalOf;
    StepFollows(hash, s, a);
    MachineStarts(PhaseOf(s), SignalOf(s, a));
    EntrySignal(s, a);
  }

  lemma EntrySignal(s: S, a: Action)
    requires Enabled(s, a)
    ensures SignalOf(s, a).WasCreated? || SignalOf(s, a).WasJoined? <==> a.Deliver? && (a.event.RoomCreated? || a.event.RoomJoined?)
  {
  }

  predicate StartsOn(p: Phase, x: Signal) {
    var q := Moves(p, x).0;
    q.starting <==> p.starting && !((x.WasCreated? || x.WasJoined?) && p.status != Ended) && !(q.status == Ended && p.status != Ended)
  }

  predicate IsRoomSignal(x: Signal) {
    x.WasCreated? || x.WasJoined? || x.OtherCame? || x.RoomOver?
  }

  predicate IsServerSignal(x: Signal) {
    x.ServerRefused? || x.ServerLost? || x.Retry? || x.AttemptSettled? || x.OtherLost?
  }

  lemma RoomSignalStarts(p: Phase, x: Signal)
    requires IsRoomSignal(x)
    ensures StartsOn(p, x)
  {
  }

  lemma RefusalStarts(p: Phase, code: ErrorCode)
    ensures StartsOn(p, ServerRefused(code))
  {
  }

  lemma ServerSignalStarts(p: Phase, x: Signal)
    requires IsServerSignal(x)
    ensures StartsOn(p, x)
  {
    hide Refused;
    if x.ServerRefused? {
      hide StartsOn;
      RefusalStarts(p, x.error);
    }
  }

  lemma OwnSignalStarts(p: Phase, x: Signal)
    requires !IsRoomSignal(x) && !IsServerSignal(x)
    ensures StartsOn(p, x)
  {
  }

  lemma MachineStarts(p: Phase, x: Signal)
    ensures StartsOn(p, x)
  {
    hide StartsOn;
    if IsRoomSignal(x) {
      RoomSignalStarts(p, x);
    } else if IsServerSignal(x) {
      ServerSignalStarts(p, x);
    } else {
      OwnSignalStarts(p, x);
    }
  }

  /** While it may rejoin, and has an attempt under way or a retry parked, that stays so
      until it is let into the room again. */
  lemma KeepsTrying(hash: seq<byte> -> string, s: S, a: Action)
    requires Inv(s) && Enabled(s, a) && RejoinAllowed(s) && (s.connects > 0 || s.timers.rejoin.Some?)
    ensures var r := Next(hash, s, a);
            RejoinAllowed(r) ==>
              || r.connects > 0 || r.timers.rejoin.Some?
              || (a == ConnectDone(true) && Life(r.log) == Life(s.log) + [JoinRoom(s.token)])
  {
    hide Life, Next, Moves, SignalOf;
    StepFollows(hash, s, a);
    MachineKeepsTrying(PhaseOf(s), SignalOf(s, a));
    if SignalOf(s, a) == AttemptSettled(true) {
      SettlingSignal(s, a);
    }
  }

  predicate TriesOn(p: Phase, x: Signal) {
    var (q, said) := Moves(p, x);
    MayRejoin(q) ==> q.connects > 0 || q.retrying || (x == AttemptSettled(true) && said == [JoinRoom(p.token)])
  }

  lemma RoomSignalTriesOn(p: Phase, x: Signal)
    requires MayRejoin(p) && (p.connects > 0 || p.retrying) && IsRoomSignal(x)
    ensures TriesOn(p, x)
  {
  }

  lemma ServerSignalTriesOn(p: Phase, x: Signal)
    requires MayRejoin(p) && (p.connects > 0 || p.retrying) && IsServerSignal(x)
    ensures TriesOn(p, x)
  {
    hide Refused;
    if x.ServerRefused? {
      hide TriesOn;
      RefusalTriesOn(p, x.error);
    } else if x.AttemptSettled? {
      hide TriesOn;
      SettlingTriesOn(p, x.ok);
    }
  }

  lemma SettlingTriesOn(p: Phase, ok: bool)
    requires MayRejoin(p) && (p.connects > 0 || p.retrying)
    ensures TriesOn(p, AttemptSettled(ok))
  {
  }

  lemma RefusalTriesOn(p: Phase, code: ErrorCode)
    requires MayRejoin(p) && (p.connects > 0 || p.retrying)
    ensures TriesOn(p, ServerRefused(code))
  {
  }

  lemma OwnSignalTriesOn(p: Phase, x: Signal)
    requires MayRejoin(p) && (p.connects > 0 || p.retrying) && !IsRoomSignal(x) && !IsServerSignal(x)
    ensures TriesOn(p, x)
  {
  }

  lemma MachineKeepsTrying(p: Phase, x: Signal)
    requires MayRejoin(p) && (p.connects > 0 || p.retrying)
    ensures TriesOn(p, x)
  {
    hide TriesOn;
    if IsRoomSignal(x) {
      RoomSignalTriesOn(p, x);
    } else if IsServerSignal(x) {
      ServerSignalTriesOn(p, x);
    } else {
      OwnSignalTriesOn(p, x);
    }
  }

  lemma SettlingSignal(s: S, a: Action)
    requires Enabled(s, a) && SignalOf(s, a) == AttemptSettled(true)
    ensures a == ConnectDone(true)
  {
  }

  // ---- the key confirmation is timed ----

  /** Once the own key is out, the timeout of the key confirmation is pending. */
  predicate ConfirmTimed(s: S) {
    s.status == Securing ==>
      || s.handler == Busy(Generating) || (s.handler.Busy? && s.handler.aw.Exporting?)
      || (s.timers.confirm.Some? && s.timers.confirm.value in s.timers.pending
          && s.timers.pending[s.timers.confirm.value] == ConfirmTimeout)
  }

  lemma ConfirmIsPending(s: S)
    requires Inv(s) && s.timers.confirm.Some?
    ensures s.timers.confirm.value in s.timers.pending && s.timers.pending[s.timers.confirm.value] == ConfirmTimeout
  {
  }

  /** Generating and exporting the key are followed by what they lead to. */
  lemma KeyComesOut(hash: seq<byte> -> string, s: S, priv: nat, now: int)
    requires s.handler.Busy? && s.handler.aw.Generating?
    ensures ResumeHandler(hash, s, priv, now).handler.Busy? && ResumeHandler(hash, s, priv, now).handler.aw.Exporting?
  {
  }

  lemma NextKeepsConfirmTimed(hash: seq<byte> -> string, s: S, a: Action)
    requires Inv(s) && ConfirmTimed(s) && Enabled(s, a)
    ensures ConfirmTimed(Next(hash, s, a))
  {
    hide Life, Moves, Next, SignalOf;
    var r := Next(hash, s, a);
    NextKeepsInv(hash, s, a);
    if r.status == Securing {
      if r.timers.confirm.Some? {
        ConfirmIsPending(r);
      } else if a.HandlerRuns? {
        HandlerKeepsConfirmTimed(hash, s, a);
      } else if s.handler.Busy? {
        BusyKeepsConfirmTimed(hash, s, a);
      } else {
        OnlyOpeningUntimes(hash, s, a);
      }
    }
  }

  lemma HandlerKeepsConfirmTimed(hash: seq<byte> -> string, s: S, a: Action)
    requires Inv(s) && ConfirmTimed(s) && Enabled(s, a) && a.HandlerRuns?
    requires Next(hash, s, a).status == Securing && Next(hash, s, a).timers.confirm.None?
    ensures ConfirmTimed(Next(hash, s, a))
  {
    hide Life, ResumeHandler;
    StepFollows(hash, s, a);
    if s.handler.aw.Generating? {
      KeyComesOut(hash, s, a.priv, a.now);
    }
  }

  lemma BusyKeepsConfirmTimed(hash: seq<byte> -> string, s: S, a: Action)
    requires Inv(s) && ConfirmTimed(s) && Enabled(s, a) && !a.HandlerRuns? && s.handler.Busy?
    requires Next(hash, s, a).status == Securing && Next(hash, s, a).timers.confirm.None?
    ensures ConfirmTimed(Next(hash, s, a))
  {
    hide Life, Next, SignalOf, Moves;
    StepFollows(hash, s, a);
    MachineUntimes(PhaseOf(s), SignalOf(s, a));
    BusySignal(s, a);
    ReceiveReports.HandlerStays(hash, s, a);
  }

  lemma BusySignal(s: S, a: Action)
    requires Enabled(s, a) && s.handler.Busy? && !a.HandlerRuns?
    ensures !SignalOf(s, a).ChannelOpened?
  {
  }

  lemma OnlyOpeningUntimes(hash: seq<byte> -> string, s: S, a: Action)
    requires Inv(s) && ConfirmTimed(s) && Enabled(s, a) && !a.HandlerRuns? && s.handler == Idle
    requires Next(hash, s, a).status == Securing && Next(hash, s, a).timers.confirm.None?
    ensures Next(hash, s, a).handler == Busy(Generating)
  {
    hide Life, Moves, SignalOf, HandleEvent;
    StepFollows(hash, s, a);
    MachineUntimes(PhaseOf(s), SignalOf(s, a));
    OpeningSignal(s, a);
    OpenedGenerates(s);
  }

  predicate Untimes(p: Phase, x: Signal) {
    Moves(p, x).0.status == Securing && !Moves(p, x).0.confirming ==>
      p.status != Ended && (x.ChannelOpened? || (p.status == Securing && !p.confirming))
  }

  lemma RoomSignalUntimes(p: Phase, x: Signal)
    requires IsRoomSignal(x)
    ensures Untimes(p, x)
  {
  }

  lemma ServerSignalUntimes(p: Phase, x: Signal)
    requires IsServerSignal(x)
    ensures Untimes(p, x)
  {
  }

  lemma OwnSignalUntimes(p: Phase, x: Signal)
    requires !IsRoomSignal(x) && !IsServerSignal(x)
    ensures Untimes(p, x)
  {
  }

  lemma MachineUntimes(p: Phase, x: Signal)
    ensures Untimes(p, x)
  {
    hide Untimes;
    if IsRoomSignal(x) {
      RoomSignalUntimes(p, x);
    } else if IsServerSignal(x) {
      ServerSignalUntimes(p, x);
    } else {
      OwnSignalUntimes(p, x);
    }
  }

  lemma OpeningSignal(s: S, a: Action)
    requires Enabled(s, a) && SignalOf(s, a).ChannelOpened?
    ensures a.Deliver? && a.event == DataOpened
  {
  }

  lemma OpenedGenerates(s: S)
    ensures forall now :: s.status != Ended ==> HandleEvent(s, DataOpened, now).handler == Busy(Generating)
  {
  }

  /** Over every run: a session that has sent its key and is not yet confirmed runs out
      of time sooner or later. */
  lemma {:induction false} ConfirmationIsTimed(hash: seq<byte> -> string, s: S, actions: seq<Action>)
    requires Inv(s) && ConfirmTimed(s) && IsRun(hash, s, actions)
    ensures ConfirmTimed(Run(hash, s, actions))
    decreases |actions|
  {
    if actions != [] {
      NextKeepsConfirmTimed(hash, s, actions[0]);
      NextKeepsInv(hash, s, actions[0]);
      ConfirmationIsTimed(hash, Next(hash, s, actions[0]), actions[1..]);
    }
  }

  // ---- what was announced ----

  /** The status last announced; a session is connecting until then. */
  function LastStatus(life: Log): Status {
    if life == [] then Connecting
    else
      var last := life[|life| - 1];
      if last.Emit? && last.event.StatusIs? then last.event.status else LastStatus(life[..|life| - 1])
  }

  lemma LastStatusMore(life: Log, e: Entry)
    ensures LastStatus(life + [e]) == if e.Emit? && e.event.StatusIs? then e.event.status else LastStatus(life)
  {
    assert (life + [e])[..|life|] == life;
  }

  lemma {:induction false} LastStatusAppend(life: Log, more: Log)
    ensures LastStatus(life + more) ==
            if exists i :: 0 <= i < |more| && more[i].Emit? && more[i].event.StatusIs? then LastStatus(more) else LastStatus(life)
  {
    if more == [] {
      assert life + more == life;
    } else {
      var front, e := more[..|more| - 1], more[|more| - 1];
      assert life + more == (life + front) + [e];
      assert more == front + [e];
      LastStatusAppend(life, front);
      LastStatusMore(life + front, e);
      LastStatusMore(front, e);
    }
  }

  /** What the machine says keeps the announced status the real one. */
  predicate Tracks(p: Phase, step: Step) {
    && (forall i :: 0 <= i < |step.1| && step.1[i].Emit? && step.1[i].event.StatusIs? ==> step.1[i].event.status == step.0.status)
    && (step.0.status != p.status ==> exists i :: 0 <= i < |step.1| && step.1[i] == Emit(StatusIs(step.0.status)))
  }

  lemma LearningTracks(p: Phase, token: Option<Token>)
    ensures Tracks(p, Learns(p, token)) && Learns(p, token).0.status == p.status
  {
  }

  lemma TurningTracks(p: Phase, before: Log, x: Step, status: Status)
    requires x == Turns(p, status) && forall i :: 0 <= i < |before| ==> !(before[i].Emit? && before[i].event.StatusIs?)
    ensures Tracks(p, After(before, x))
  {
    var step := After(before, x);
    if p.status != status {
      assert step.1[|before|] == Emit(StatusIs(status));
    }
  }

  lemma OverTracks(p: Phase, q: Phase, why: EndReason)
    requires q.status == p.status
    ensures Tracks(p, Over(q, why)) && Tracks(p, LeavesOver(q, why))
  {
    assert Over(q, why).1[0] == Emit(StatusIs(Ended)) && LeavesOver(q, why).1[1] == Emit(StatusIs(Ended));
  }

  lemma GracingTracks(p: Phase, now: int, attempts: nat)
    ensures Tracks(p, Graces(p, now, attempts))
  {
    assert Graces(p, now, attempts).1[0] == Emit(StatusIs(Reconnecting));
  }

  lemma CreatingTracks(p: Phase, token: Option<Token>, now: int)
    ensures Tracks(p, After(Learns(p, token).1, Waits(Learns(p, token).0, now)))
  {
    LearningTracks(p, token);
    var q := Learns(p, token).0;
    LearningSaysNoStatus(p, token);
    TurningTracks(q.(waitingDeadline := now + q.inviteMs, starting := false), Learns(p, token).1, Waits(q, now), WaitingForPeer);
  }

  lemma LearningSaysNoStatus(p: Phase, token: Option<Token>)
    ensures var said := Learns(p, token).1;
            forall i :: 0 <= i < |said| ==> !(said[i].Emit? && said[i].event.StatusIs?)
  {
  }

  lemma JoiningTracks(p: Phase, others: nat, graceMs: int, token: Option<Token>, now: int)
    ensures var q := Learns(p, token).0; Tracks(p, After(Learns(p, token).1, Joins(q, others, graceMs, now)))
  {
    hide Tracks;
    LearningTracks(p, token);
    LearningSaysNoStatus(p, token);
    var q := Learns(p, token).0;
    var r := q.(graceMs := graceMs, waitingRejoin := false, starting := false);
    var w := r.(waitingDeadline := if r.waitingDeadline == 0 then now + 3_600_000 else r.waitingDeadline);
    TurningTracks(w, Learns(p, token).1, Turns(w, WaitingForPeer), WaitingForPeer);
    SameStatusTracks(p, w, After(Learns(p, token).1, Turns(w, WaitingForPeer)));
    SilentTracks(p, After(Learns(p, token).1, Stays(r)));
  }

  lemma SameStatusTracks(p: Phase, q: Phase, step: Step)
    requires p.status == q.status && Tracks(q, step)
    ensures Tracks(p, step)
  {
  }

  lemma SilentTracks(p: Phase, step: Step)
    requires p.status == step.0.status
    requires forall i :: 0 <= i < |step.1| ==> !(step.1[i].Emit? && step.1[i].event.StatusIs?)
    ensures Tracks(p, step)
  {
  }

  lemma ConfirmingTracks(p: Phase, code: Option<SafetyCode>)
    ensures Tracks(p, Lives(p, Confirmed(code)))
  {
    if p.status != Secure {
      assert Lives(p, Confirmed(code)).1[0] == Emit(StatusIs(Secure));
    }
  }

  lemma RefusingTracks(p: Phase, code: ErrorCode)
    ensures Tracks(p, Refused(p, code))
  {
    OverTracks(p, p, GraceRanOut);
    OverTracks(p, p, InviteRanOut);
    OverTracks(p, p, NoSuchRoom);
    OverTracks(p, p, FullRoom);
    OverTracks(p, p, Limited);
    OverTracks(p, p, SignalingGone);
  }

  lemma AttemptingTracks(p: Phase, q: Phase, now: int)
    requires q.status == p.status
    ensures Tracks(p, Attempts(q, now))
  {
    OverTracks(p, q, InviteRanOut);
  }

  lemma MachineTracks(p: Phase, x: Signal)
    ensures Tracks(p, Moves(p, x))
  {
    hide Tracks, Over, LeavesOver, Graces, Attempts, Refused;
    if p.status != Ended {
      match x {
        case WasCreated(token, now) => CreatingTracks(p, token, now);
        case WasJoined(others, graceMs, token, now) => JoiningTracks(p, others, graceMs, token, now);
        case OtherCame(token) => LearningTracks(p, token);
        case OtherLost(now) => GracingTracks(p, now, 0); StayingTracks(p, p);
        case ServerLost(now) =>
          GracingTracks(p, now, 1);
          StayingTracks(p, p.(retrying := true));
          AttemptingTracks(p, p.(waitingRejoin := true), now);
          OverTracks(p, p, SignalingGone);
        case ServerRefused(code) => RefusingTracks(p, code);
        case RoomOver(_) =>
          OverTracks(p, p, InviteRanOut);
          OverTracks(p, p, GraceRanOut);
          OverTracks(p, p, CreatorGone);
          OverTracks(p, p, ByPeer);
        case ChannelOpened => OpeningTracks(p);
        case Confirmed(code) => ConfirmingTracks(p, code);
        case HandshakeFailed(why) => OverTracks(p, p, why);
        case HandlerDied => OverTracks(p, p, SignalingGone);
        case PeerSaidEnd => OverTracks(p, p, ByPeer);
        case UserEnds(canSay) => UserEndTracks(p, canSay);
        case Tick(now) => OverTracks(p, p, GraceRanOut); CountingTracks(p, now);
        case Retry(now) => AttemptingTracks(p, p.(retrying := false), now);
        case _ => QuietTracks(p, x);
      }
    } else {
      QuietTracks(p, x);
    }
  }

  lemma StayingTracks(p: Phase, q: Phase)
    requires q.status == p.status
    ensures Tracks(p, Stays(q))
  {
  }

  lemma OpeningTracks(p: Phase)
    ensures Tracks(p, Turns(p.(retrying := false, confirming := false), Securing))
  {
    var q := p.(retrying := false, confirming := false);
    TurningTracks(q, [], Turns(q, Securing), Securing);
    assert [] + Turns(q, Securing).1 == Turns(q, Securing).1;
  }

  lemma UserEndTracks(p: Phase, canSay: bool)
    ensures Tracks(p, Lives(p, UserEnds(canSay)))
  {
    OverTracks(p, p, YouEnded);
  }

  lemma CountingTracks(p: Phase, now: int)
    ensures Tracks(p, (p, [Emit(GraceCountdown(p.graceDeadline - now))]))
  {
  }

  lemma QuietTracks(p: Phase, x: Signal)
    requires p.status == Ended || x.KeySent? || x.Nothing? || x.AttemptSettled? || x.SaidFarewell?
    ensures Tracks(p, Moves(p, x))
  {
  }

  lemma TracksOn(p: Phase, step: Step, life: Log)
    requires Tracks(p, step) && LastStatus(life) == p.status
    ensures LastStatus(life + step.1) == step.0.status
  {
    LastStatusAppend(life, step.1);
    LastStatusAmong(step.1, step.0.status);
  }

  lemma {:induction false} LastStatusAmong(said: Log, status: Status)
    requires forall i :: 0 <= i < |said| && said[i].Emit? && said[i].event.StatusIs? ==> said[i].event.status == status
    ensures (exists i :: 0 <= i < |said| && said[i].Emit? && said[i].event.StatusIs?) ==> LastStatus(said) == status
  {
    if said != [] {
      LastStatusAmong(said[..|said| - 1], status);
    }
  }

  /** Over every run: the status last announced is the session's status. */
  lemma {:induction false} StatusWasAnnounced(hash: seq<byte> -> string, s: S, actions: seq<Action>)
    requires Inv(s) && IsRun(hash, s, actions) && LastStatus(Life(s.log)) == s.status
    ensures var t := Run(hash, s, actions); LastStatus(Life(t.log)) == t.status
    decreases |actions|
  {
    hide Life, Next, Moves, SignalOf, Tracks;
    if actions != [] {
      var a := actions[0];
      StepFollows(hash, s, a);
      MachineTracks(PhaseOf(s), SignalOf(s, a));
      TracksOn(PhaseOf(s), Moves(PhaseOf(s), SignalOf(s, a)), Life(s.log));
      NextKeepsInv(hash, s, a);
      StatusWasAnnounced(hash, Next(hash, s, a), actions[1..]);
    }
  }

  lemma FreshAnnounces(secret: nat, inviteWindowMs: int, graceDurationMs: int, token: Option<Token>)
    ensures var s := Fresh(secret, inviteWindowMs, graceDurationMs, token);
            Inv(s) && ConfirmTimed(s) && LastStatus(Life(s.log)) == s.status == Connecting
  {
    var s := Fresh(secret, inviteWindowMs, graceDurationMs, token);
    FreshInv(secret, inviteWindowMs, graceDurationMs, token);
    if s.log != [] {
      assert s.log == [] + [Emit(RecoveryToken(token.value))];
      LifeMore([], Emit(RecoveryToken(token.value)));
      assert Life(s.log) == [] + [Emit(RecoveryToken(token.value))];
      LastStatusMore([], Emit(RecoveryToken(token.value)));
    }
  }

  /** Both of every session that a run leads to from a new one. */
  lemma NewSessionKeepsTrack(hash: seq<byte> -> string, secret: nat, inviteWindowMs: int, graceDurationMs: int,
                             token: Option<Token>, actions: seq<Action>)
    requires IsRun(hash, Fresh(secret, inviteWindowMs, graceDurationMs, token), actions)
    ensures var t := Run(hash, Fresh(secret, inviteWindowMs, graceDurationMs, token), actions);
            LastStatus(Life(t.log)) == t.status && ConfirmTimed(t)
  {
    hide Fresh, Life, ConfirmTimed;
    var s := Fresh(secret, inviteWindowMs, graceDurationMs, token);
    FreshAnnounces(secret, inviteWindowMs, graceDurationMs, token);
    StatusWasAnnounced(hash, s, actions);
    ConfirmationIsTimed(hash, s, actions);
  }
}
