/** How often the end of a receive is reported: once, and a second time exactly if
    it was cancelled or lost while a chunk that is then refused was being decrypted. */
module ReceiveReports {
  import opened Wrappers
  import opened Protocol
  import opened Base64url
  import opened Wire
  import opened FileTransfer
  import opened Session
  import opened SessionSteps
  import opened HandlerSteps
  import opened LoopSteps
  import opened Reachability
  import opened SessionInvariants

  // ---- counting in the log ----

  /** An offer was taken. */
  predicate IsArrival(e: Entry) {
    e.Emit? && e.event.FileIncoming?
  }

  /** A receive was reported complete or failed. */
  predicate IsOutcome(e: Entry) {
    e.Emit? && (e.event.FileComplete? || (e.event.FileFailed? && e.event.direction == Incoming))
  }

  /** The reports on the receive that the latest offer began. */
  function Outcomes(log: Log): nat {
    if log == [] then 0
    else
      var last := log[|log| - 1];
      if IsArrival(last) then 0 else Outcomes(log[..|log| - 1]) + if IsOutcome(last) then 1 else 0
  }

  predicate HasArrival(log: Log) {
    exists i :: 0 <= i < |log| && IsArrival(log[i])
  }

  /** No other offer was taken since. */
  predicate SameReceive(before: Log, after: Log) {
    before <= after && forall i :: |before| <= i < |after| ==> !IsArrival(after[i])
  }

  lemma OneMore(log: Log, e: Entry)
    ensures Outcomes(log + [e]) == if IsArrival(e) then 0 else Outcomes(log) + if IsOutcome(e) then 1 else 0
    ensures HasArrival(log + [e]) <==> HasArrival(log) || IsArrival(e)
  {
    assert (log + [e])[..|log|] == log;
    assert (log + [e])[|log|] == e;
    if HasArrival(log) {
      var i :| 0 <= i < |log| && IsArrival(log[i]);
      assert IsArrival((log + [e])[i]);
    }
  }

  lemma {:induction false} NothingMore(before: Log, after: Log)
    requires SaysNoReceive(before, after)
    ensures Outcomes(after) == Outcomes(before) && SameReceive(before, after)
    ensures HasArrival(after) <==> HasArrival(before)
    decreases |after|
  {
    if before == after {
    } else {
      var front, last := after[..|after| - 1], after[|after| - 1];
      assert after == front + [last];
      NothingMore(before, front);
      OneMore(front, last);
    }
  }

  // ---- what is under way ----

  /** An offer taken is under way, in its slot or being finished, or was reported
      over: once, or twice; a receive that has left its slot while a chunk of it is
      being decrypted was reported exactly once so far. */
  predicate ReceiveOk(s: S) {
    && Outcomes(s.log) <= 2
    && (s.x.receive.Some? ==> Outcomes(s.log) == 0 && HasArrival(s.log))
    && (IsFinishing(s.handler) ==> Outcomes(s.log) == 0 && s.x.receive.None?)
    && (IsTaking(s.handler) && s.x.receive.None? ==> Outcomes(s.log) == 1)
    && (s.x.receive.None? && !IsFinishing(s.handler) && HasArrival(s.log) ==> Outcomes(s.log) >= 1)
    && (Receiving(s.handler) ==> HasArrival(s.log))
  }

  predicate IsFinishing(h: Handler) {
    h.Busy? && h.aw.FinishingFile?
  }

  predicate IsTaking(h: Handler) {
    h.Busy? && h.aw.AcceptingChunk?
  }

  /** The chunk will not be taken, and the receive fails for it. */
  predicate Refuses(job: ReceiveJob, frame: Binary) {
    && !frame.OtherBinaryVersion?
    && (|| frame.GarbageBinary? || frame.key != job.key
        || var a := AcceptChunk(job.r, frame.id, frame.seqNo, frame.bytes).1; a.OutOfOrder? || a.Overflow?)
  }

  /** A chunk that will be refused is being decrypted, and its receive is gone. */
  predicate RefusedLate(s: S) {
    && s.x.receive.None? && IsTaking(s.handler)
    && Refuses(s.handler.aw.job, s.handler.aw.frame)
  }

  // ---- steps that take no part in a receive ----

  /** The receive slot is as full as it was, or was emptied and its failure reported. */
  predicate SlotKept(s: S, t: S) {
    && SameReceive(s.log, t.log) && (HasArrival(t.log) <==> HasArrival(s.log))
    && (|| ((t.x.receive.Some? <==> s.x.receive.Some?) && Outcomes(t.log) == Outcomes(s.log))
        || (t.x.receive.None? && Outcomes(t.log) == Outcomes(s.log) + if s.x.receive.Some? then 1 else 0))
    && (t.handler == s.handler || !Receiving(t.handler))
  }

  ghost function KeepsSlot(s: S): Property {
    (t: S) => SlotKept(s, t)
  }

  lemma SlotKeptOn(s: S, t: S, u: S)
    requires SlotKept(s, t) && u.x.receive == t.x.receive && SaysNoReceive(t.log, u.log)
    requires u.handler == t.handler || !Receiving(u.handler)
    ensures SlotKept(s, u)
  {
    NothingMore(t.log, u.log);
  }

  lemma {:induction false} QueuedFailuresAreOutgoing(queue: seq<Queued>)
    ensures forall i :: 0 <= i < |FailQueued(queue)| ==> !IsReceiveEvent(FailQueued(queue)[i].event)
  {
    if queue != [] {
      QueuedFailuresAreOutgoing(queue[..|queue| - 1]);
    }
  }

  /** What failing all transfers says of those being sent. */
  function SendsFailed(x: Transfers): Log {
    (if x.pendingAck.Some? then [Emit(FileFailed(x.pendingAck.value, Outgoing, Disconnected))] else []) + FailQueued(x.queue)
  }

  function ReceiveFailed(x: Transfers): Log {
    if x.receive.Some? then [Emit(FileFailed(x.receive.value.r.id, Incoming, Disconnected))] else []
  }

  lemma FailAllSays(s: S)
    ensures var r := FailAllTransfers(s);
            r.log == s.log + SendsFailed(s.x) + ReceiveFailed(s.x) && r.x.receive.None? && r.handler == s.handler
  {
    var acked := if s.x.pendingAck.Some? then [Emit(FileFailed(s.x.pendingAck.value, Outgoing, Disconnected))] else [];
    assert s.log + acked + FailQueued(s.x.queue) == s.log + (acked + FailQueued(s.x.queue));
  }

  lemma SendsFailedSaysNoReceive(log: Log, x: Transfers)
    ensures SaysNoReceive(log, log + SendsFailed(x))
  {
    QueuedFailuresAreOutgoing(x.queue);
  }

  /** The slot is emptied and that is reported, as the last thing. */
  lemma SlotEmptied(s: S, t: S, u: S, e: Entry)
    requires SlotKept(s, t) && t.x.receive.Some? && u.x.receive.None? && IsOutcome(e)
    requires u.log != [] && u.log[|u.log| - 1] == e && SaysNoReceive(t.log, u.log[..|u.log| - 1])
    requires u.handler == t.handler || !Receiving(u.handler)
    ensures SlotKept(s, u)
  {
    var sent := u.log[..|u.log| - 1];
    assert u.log == sent + [e];
    NothingMore(t.log, sent);
    OneMore(sent, e);
  }

  lemma FailAllKeepsSlot(s: S, t: S)
    requires SlotKept(s, t)
    ensures SlotKept(s, FailAllTransfers(t))
  {
    var r := FailAllTransfers(t);
    var sent := t.log + SendsFailed(t.x);
    FailAllSays(t);
    SendsFailedSaysNoReceive(t.log, t.x);
    if t.x.receive.Some? {
      assert r.log[..|r.log| - 1] == sent;
      SlotEmptied(s, t, r, ReceiveFailed(t.x)[0]);
    } else {
      assert r.log == sent;
      SlotKeptOn(s, t, r);
    }
  }

  lemma StoppingKeepsSlot(s: S, t: S, reason: FailReason)
    requires SlotKept(s, t)
    ensures SlotKept(s, Stopped(t, reason))
  {
    SlotKeptOn(s, t, Stopped(t, reason));
  }

  lemma AckFailedKeepsSlot(s: S, t: S, reason: FailReason)
    requires SlotKept(s, t) && t.x.pendingAck.Some?
    ensures SlotKept(s, AckFailed(t, reason))
  {
    SlotKeptOn(s, t, AckFailed(t, reason));
  }

  lemma SecuringKeepsSlot(s: S, t: S)
    requires SlotKept(s, t)
    ensures SlotKept(s, BecomeSecure(t))
  {
    SlotKeptOn(s, t, BecomeSecure(t));
  }

  lemma KeepsSlotIsClosed(s: S)
    ensures ClosedUnderProgress(KeepsSlot(s)) && ClosedUnderSecuring(KeepsSlot(s)) && ClosedUnderTokens(KeepsSlot(s))
  {
    forall t, u | SlotKept(s, t) && (Hushed(t, u) || Progresses(t, u)) ensures SlotKept(s, u) {
      SlotKeptOn(s, t, u);
    }
    forall t: S | SlotKept(s, t) ensures SlotKept(s, FailAllTransfers(t)) {
      FailAllKeepsSlot(s, t);
    }
    forall t: S, reason | SlotKept(s, t) ensures SlotKept(s, Stopped(t, reason)) {
      StoppingKeepsSlot(s, t, reason);
    }
    forall t: S, reason | t.x.pendingAck.Some? && SlotKept(s, t) ensures SlotKept(s, AckFailed(t, reason)) {
      AckFailedKeepsSlot(s, t, reason);
    }
    forall t: S | SlotKept(s, t) ensures SlotKept(s, BecomeSecure(t)) {
      SecuringKeepsSlot(s, t);
    }
  }

  lemma SlotKeptStart(s: S)
    ensures SlotKept(s, s)
  {
  }

  // ---- the send queue ----

  function AnyLoop(): LoopProperty {
    (l: Loop) => true
  }

  function NotOfReceives(): EntryProperty {
    (e: Entry) => e.Emit? ==> !IsReceiveEvent(e.event)
  }

  lemma SendsSurvive(s: S)
    ensures Survives(s, AnyLoop(), AnyQueued(), NotOfReceives())
  {
    forall l, buffered | JobCanRun(l) ensures forall e :: e in RanLog(s, l, buffered) ==> NotOfReceives()(e) {
      RanLogIsNotOfReceives(s, l, buffered);
    }
  }

  lemma RanLogIsNotOfReceives(s: S, l: Loop, buffered: int)
    requires JobCanRun(l)
    ensures forall e :: e in RanLog(s, l, buffered) ==> e.Emit? ==> !IsReceiveEvent(e.event)
  {
  }

  lemma {:induction false} TopKeepsReceive(s: S, id: nat)
    ensures LoopTop(s, id).x.receive == s.x.receive && LoopTop(s, id).handler == s.handler
    decreases |s.x.queue|
  {
    if s.x.queue != [] && !CanSend(s) {
      var q := s.x.queue[0];
      TopKeepsReceive(Settled(s.(x := s.x.(queue := s.x.queue[1..])), Block(q.src, q.ticket, []), Some(Disconnected)), id);
    }
  }

  lemma ReadKeepsReceive(s: S, id: nat, ok: bool)
    requires id in s.x.loops && s.x.loops[id].Reading?
    ensures AfterRead(s, id, ok).x.receive == s.x.receive
  {
    var l := s.x.loops[id];
    TopKeepsReceive(Settled(s, Block(l.src, l.ticket, []), Some(Failed)), id);
  }

  lemma JobEndedKeepsReceive(s: S, id: nat)
    requires id in s.x.loops && s.x.loops[id].Running? && !Suspended(s.x.loops[id].job)
    ensures JobEnded(s, id).x.receive == s.x.receive
  {
    var l := s.x.loops[id];
    var b := Block(l.src, l.ticket, l.sent);
    var s1 := s.(x := s.x.(activeSend := None));
    TopKeepsReceive(Settled(s1.(x := s1.x.(pendingAck := Some(l.src.id))), b, None), id);
    TopKeepsReceive(Settled(s1, b, Some(WhyFailed(s, l.job))), id);
  }

  lemma LoopKeepsReceive(s: S, id: nat, readOk: bool, buffered: int)
    requires LoopCanRun(s, id)
    ensures LoopRuns(s, id, readOk, buffered).x.receive == s.x.receive
  {
    match s.x.loops[id] {
      case Reading(_, _, _) => ReadKeepsReceive(s, id, readOk);
      case Exiting =>
      case Running(_, _, _, job, _, _) =>
        if !Suspended(job) { JobEndedKeepsReceive(s, id); }
    }
  }

  lemma OfferKeepsReceive(s: S, src: Source)
    ensures SendFile(s, src).x.receive == s.x.receive
  {
    var s1 := s.(x := s.x.(queue := s.x.queue + [Queued(src, |s.x.returned|)], returned := s.x.returned + [src.id]));
    TopKeepsReceive(s1.(x := s1.x.(draining := true, nextLoop := s1.x.nextLoop + 1)), s1.x.nextLoop);
  }

  lemma QueueStepKeepsSlot(hash: seq<byte> -> string, s: S, a: Action)
    requires Enabled(s, a) && IsQueueStep(a) && !a.FileCancelled?
    ensures SlotKept(s, Next(hash, s, a))
  {
    var s' := Next(hash, s, a);
    SendsSurvive(s);
    QueueStepKeeps(hash, s, a, AnyLoop(), AnyQueued(), NotOfReceives());
    QueueStepIsTransfers(hash, s, a);
    if a.FileOffered? {
      OfferKeepsReceive(s, a.src);
    } else if a.LoopRunsOn? {
      LoopKeepsReceive(s, a.loop, a.readOk, a.buffered);
    }
    assert forall i :: |s.log| <= i < |s'.log| ==> NotOfReceives()(s'.log[i]);
    SlotKeptStart(s);
    SlotKeptOn(s, s, s');
  }

  lemma CancelReceiveKeepsSlot(s: S, t: S, id: string)
    requires SlotKept(s, t)
    ensures SlotKept(s, CancelReceive(t, id))
  {
    var r := CancelReceive(t, id);
    if t.x.receive.Some? && t.x.receive.value.r.id == id {
      assert r.log[..|r.log| - 1] == t.log;
      SlotEmptied(s, t, r, Emit(FileFailed(id, Incoming, Cancelled)));
    }
  }

  lemma CancelKeepsSlot(s: S, id: string)
    ensures SlotKept(s, CancelFile(s, id))
  {
    SlotKeptStart(s);
    if ActiveId(s.x) == Some(id) {
      SlotKeptOn(s, s, CancelFile(s, id));
    } else {
      var s1 := CancelInQueue(s, id);
      SlotKeptOn(s, s, s1);
      CancelReceiveKeepsSlot(s, s1, id);
      AckKeepsSlot(s, CancelReceive(s1, id), id, Cancelled);
    }
  }

  lemma AckKeepsSlot(s: S, t: S, id: string, reason: FailReason)
    requires SlotKept(s, t)
    ensures SlotKept(s, CancelPendingAck(t, id, reason))
  {
    SlotKeptOn(s, t, CancelPendingAck(t, id, reason));
  }

  lemma AppKeepsSlot(hash: seq<byte> -> string, s: S, a: Action)
    requires Enabled(s, a) && (a.AppSends? || a.EndTailRuns?)
    ensures SlotKept(s, Next(hash, s, a))
  {
    SlotKeptStart(s);
    SlotKeptOn(s, s, Next(hash, s, a));
  }

  /** So does every step but those of a receive. */
  lemma OtherStepKeepsSlot(hash: seq<byte> -> string, s: S, a: Action)
    requires Enabled(s, a) && !IsReceiveStep(s, a)
    ensures SlotKept(s, Next(hash, s, a))
  {
    if a.FileCancelled? {
      CancelKeepsSlot(s, a.id);
    } else if IsQueueStep(a) {
      QueueStepKeepsSlot(hash, s, a);
    } else if IsSendStep(a) {
      AppKeepsSlot(hash, s, a);
    } else {
      KeepsSlotIsClosed(s);
      SlotKeptStart(s);
      StepKeeps(KeepsSlot(s), hash, s, a);
    }
  }

  // ---- the steps of a receive ----

  /** The step keeps the account; it makes the second report exactly if `late`. */
  predicate StepOk(s: S, s': S, late: bool) {
    && ReceiveOk(s')
    && (Outcomes(s.log) < 2 ==> (Outcomes(s'.log) == 2 <==> late))
    && (Outcomes(s.log) == 1 && !RefusedLate(s) && SameReceive(s.log, s'.log) ==>
          Outcomes(s'.log) == 1 && !RefusedLate(s'))
  }

  lemma SlotKeptIsOk(s: S, s': S)
    requires ReceiveOk(s) && SlotKept(s, s')
    requires s'.handler == s.handler || !IsFinishing(s.handler)
    ensures StepOk(s, s', false)
  {
  }

  lemma TakesUpChunk(s: S, frame: Binary)
    requires ReceiveOk(s) && s.handler == Idle
    ensures StepOk(s, HandleBinary(s, frame), false)
  {
    assert Outcomes(s.log) == Outcomes(HandleBinary(s, frame).log);
  }

  lemma LateReportFollows(s: S, job: ReceiveJob, frame: Binary)
    requires s.handler == Busy(AcceptingChunk(job, frame)) && Refuses(job, frame)
    ensures AfterChunk(s, job, frame).x == s.x.(receive := None) && AfterChunk(s, job, frame).handler == Idle
    ensures AfterChunk(s, job, frame).log == s.log + [Emit(FileFailed(job.r.id, Incoming, Failed))]
  {
  }

  /** The chunk came too late and is refused: the failure is reported again. */
  lemma RefusedLateReportsAgain(s: S, job: ReceiveJob, frame: Binary)
    requires ReceiveOk(s) && RefusedLate(s) && s.handler == Busy(AcceptingChunk(job, frame))
    ensures StepOk(s, AfterChunk(s, job, frame), true)
  {
    hide AfterChunk;
    LateReportFollows(s, job, frame);
    OneMore(s.log, Emit(FileFailed(job.r.id, Incoming, Failed)));
  }

  lemma RefusedInTime(s: S, job: ReceiveJob, frame: Binary)
    requires ReceiveOk(s) && s.handler == Busy(AcceptingChunk(job, frame)) && Refuses(job, frame) && s.x.receive.Some?
    ensures StepOk(s, AfterChunk(s, job, frame), false)
  {
    var s' := AfterChunk(s, job, frame);
    assert s'.log[..|s'.log| - 1] == s.log;
    SlotKeptStart(s);
    SlotEmptied(s, s, s', Emit(FileFailed(job.r.id, Incoming, Failed)));
    SlotKeptIsOk(s, s');
  }

  lemma NotRefused(s: S, job: ReceiveJob, frame: Binary)
    requires ReceiveOk(s) && s.handler == Busy(AcceptingChunk(job, frame)) && !Refuses(job, frame)
    requires !frame.OtherBinaryVersion?
    ensures StepOk(s, AfterChunk(s, job, frame), false)
  {
    var s' := AfterChunk(s, job, frame);
    var (r, a) := AcceptChunk(job.r, frame.id, frame.seqNo, frame.bytes);
    TookKeepsSlot(s, job.(r := r), a);
    SlotKeptIsOk(s, s');
  }

  lemma TookKeepsSlot(s: S, job: ReceiveJob, a: Accept)
    requires a.NoMatch? || a.Accepted?
    ensures SlotKept(s, Took(s.(handler := Idle), job, a))
  {
    if a.Accepted? {
      OneMore(s.log, Emit(FileProgress(job.r.id, Incoming, a.bytesDone, job.r.size)));
    }
  }

  lemma ChunkStepOk(s: S, job: ReceiveJob, frame: Binary)
    requires ReceiveOk(s) && s.handler == Busy(AcceptingChunk(job, frame))
    ensures StepOk(s, AfterChunk(s, job, frame), RefusedLate(s))
  {
    if frame.OtherBinaryVersion? {
      KeepsSlotIsClosed(s);
      SlotKeptStart(s);
      HandlerFails(KeepsSlot(s), s, VersionMismatch);
      SlotKeptIsOk(s, AfterChunk(s, job, frame));
    } else if !Refuses(job, frame) {
      NotRefused(s, job, frame);
    } else if s.x.receive.Some? {
      RefusedInTime(s, job, frame);
    } else {
      RefusedLateReportsAgain(s, job, frame);
    }
  }

  lemma FinishedIsOk(s: S, t: S, e: Entry)
    requires ReceiveOk(s) && IsFinishing(s.handler) && t.x.receive.None? && !Receiving(t.handler)
    requires t.log == s.log + [e] && IsOutcome(e)
    ensures StepOk(s, t, false)
  {
    OneMore(s.log, e);
  }

  lemma FinishStepOk(hash: seq<byte> -> string, s: S, job: ReceiveJob, sha256: string, rest: seq<Cipher>)
    requires ReceiveOk(s) && s.handler == Busy(FinishingFile(job, sha256, rest))
    ensures StepOk(s, AfterFinish(hash, s, job, sha256, rest), false)
  {
    hide StepOk;
    var file := FileTransfer.Finish(job.r, hash, sha256);
    FinishedIsOk(s, AfterFinish(hash, s, job, sha256, rest),
                 Emit(if file.Some? then FileComplete(job.r.id, file.value) else FileFailed(job.r.id, Incoming, Failed)));
  }

  lemma DoneStepOk(s: S, id: string, sha256: string, rest: seq<Cipher>)
    requires ReceiveOk(s) && !Receiving(s.handler)
    ensures StepOk(s, StartFinish(s, id, sha256, rest), false)
  {
  }

  lemma OfferStepOk(s: S, o: FileOffer, rest: seq<Cipher>)
    requires ReceiveOk(s) && !Receiving(s.handler)
    ensures StepOk(s, NextBuffered(HandleOffer(s, o), rest), false)
  {
    var s1 := HandleOffer(s, o);
    if s1 == s {
      SlotKeptStart(s);
      NextBufferedKeepsSlot(s, s, rest);
      SlotKeptIsOk(s, NextBuffered(s, rest));
    } else {
      OfferTaken(s, NextBuffered(s1, rest), Emit(FileIncoming(o.id, o.name, o.mime, o.size)));
    }
  }

  lemma OfferTaken(s: S, t: S, e: Entry)
    requires ReceiveOk(s) && s.x.receive.None? && t.x.receive.Some? && !Receiving(t.handler)
    requires t.log == s.log + [e] && IsArrival(e)
    ensures StepOk(s, t, false)
  {
    OneMore(s.log, e);
    assert t.log[|s.log|] == e;
  }

  lemma PeerCancelKeepsSlot(s: S, id: string, reason: CancelReason)
    ensures SlotKept(s, HandleFileCancel(s, id, reason))
  {
    var why := CancelReasonOf(reason);
    var r := HandleFileCancel(s, id, reason);
    SlotKeptStart(s);
    if s.hs.verified {
      if ActiveId(s.x) == Some(id) {
        SlotKeptOn(s, s, r);
      } else if s.x.receive.Some? && s.x.receive.value.r.id == id {
        assert r.log[..|r.log| - 1] == s.log;
        SlotEmptied(s, s, r, Emit(FileFailed(id, Incoming, why)));
      } else {
        AckKeepsSlot(s, s, id, why);
      }
    }
  }

  lemma CancelStepOk(s: S, id: string, reason: CancelReason, rest: seq<Cipher>)
    requires ReceiveOk(s) && !Receiving(s.handler)
    ensures StepOk(s, NextBuffered(HandleFileCancel(s, id, reason), rest), false)
  {
    var s1 := HandleFileCancel(s, id, reason);
    PeerCancelKeepsSlot(s, id, reason);
    NextBufferedKeepsSlot(s, s1, rest);
    SlotKeptIsOk(s, NextBuffered(s1, rest));
  }

  lemma NextBufferedKeepsSlot(s: S, t: S, rest: seq<Cipher>)
    requires SlotKept(s, t)
    ensures SlotKept(s, NextBuffered(t, rest))
  {
    SlotKeptOn(s, t, NextBuffered(t, rest));
  }

  /** The frame is opened: the handler is no longer at it. */
  lemma OpenedIsOk(s: S)
    requires ReceiveOk(s) && !Receiving(s.handler)
    ensures ReceiveOk(s.(handler := Idle))
    ensures forall t :: StepOk(s.(handler := Idle), t, false) ==> StepOk(s, t, false)
  {
  }

  lemma OpensStepOk(s: S, key: Key, cipher: Cipher, rest: seq<Cipher>, now: int)
    requires ReceiveOk(s) && s.handler == Busy(Decrypting(key, cipher, rest)) && TouchesReceive(s.handler)
    ensures StepOk(s, AfterDecrypt(s, key, cipher, rest, now), false)
  {
    hide StepOk, ReceiveOk, StartFinish, HandleOffer, HandleFileCancel, NextBuffered;
    var p := Decrypt(key, cipher).value;
    var s1 := s.(handler := Idle);
    OpenedIsOk(s);
    match p {
      case FileDone(id, sha256) => DoneStepOk(s1, id, sha256, rest);
      case Offer(o) => OfferStepOk(s1, o, rest);
      case FileCancel(id, reason) => CancelStepOk(s1, id, reason, rest);
    }
  }

  lemma HandlerStepOk(hash: seq<byte> -> string, s: S, priv: nat, now: int)
    requires ReceiveOk(s) && s.handler.Busy? && TouchesReceive(s.handler)
    ensures StepOk(s, ResumeHandler(hash, s, priv, now), RefusedLate(s))
  {
    hide StepOk, ReceiveOk, AfterChunk, AfterFinish, AfterDecrypt;
    match s.handler.aw {
      case AcceptingChunk(job, frame) => ChunkStepOk(s, job, frame);
      case FinishingFile(job, sha256, rest) => FinishStepOk(hash, s, job, sha256, rest);
      case Decrypting(key, cipher, rest) => OpensStepOk(s, key, cipher, rest, now);
    }
  }

  /** Only its own step moves a handler that is at work. */
  lemma HandlerStays(hash: seq<byte> -> string, s: S, a: Action)
    requires Enabled(s, a) && !a.HandlerRuns? && s.handler.Busy?
    ensures Next(hash, s, a).handler == s.handler
  {
    hide EndSession, TimerFires, Wake;
    if IsQueueStep(a) {
      QueueStepIsTransfers(hash, s, a);
    } else if a.TimerFired? {
      TimerKeepsHandler(s, a.timer, a.now);
    } else if a.Woken? {
      WakeKeepsHandler(s, a.now);
    } else if a.EndCalled? {
      EndKeepsHandler(s);
    }
  }

  lemma EndKeepsHandler(s: S)
    ensures EndSession(s).handler == s.handler
  {
    hide FinishSession;
    FinishKeepsHandler(s.(tail := s.hs.key), YouEnded, false);
    FinishKeepsHandler(CloseTransport(s.(log := s.log + [LeaveRoom])), YouEnded, false);
  }

  lemma FinishKeepsHandler(s: S, reason: EndReason, close: bool)
    ensures FinishSession(s, reason, close).handler == s.handler
  {
  }

  lemma TimerKeepsHandler(s: S, t: nat, now: int)
    requires t in s.timers.pending
    ensures TimerFires(s, t, now).handler == s.handler
  {
    hide FinishSession;
    FinishKeepsHandler(s, GraceRanOut, true);
    var s1 := s.(timers := s.timers.(pending := s.timers.pending - {t}));
    FinishKeepsHandler(s1.(log := s.log + [LeaveRoom]), KeyConfirmFailed, true);
    FinishKeepsHandler(s.(timers := s1.timers.(rejoin := None)), InviteRanOut, true);
  }

  lemma WakeKeepsHandler(s: S, now: int)
    ensures Wake(s, now).handler == s.handler
  {
  }

  lemma OtherStepOk(hash: seq<byte> -> string, s: S, a: Action)
    requires ReceiveOk(s) && Enabled(s, a) && !IsReceiveStep(s, a)
    ensures StepOk(s, Next(hash, s, a), false)
  {
    OtherStepKeepsSlot(hash, s, a);
    if IsFinishing(s.handler) {
      HandlerStays(hash, s, a);
    }
    SlotKeptIsOk(s, Next(hash, s, a));
  }

  /** Every step keeps the account of receives, and makes a second report exactly if
      a chunk that is refused was being decrypted for a receive that is gone. */
  lemma StepReports(hash: seq<byte> -> string, s: S, a: Action)
    requires ReceiveOk(s) && Enabled(s, a)
    ensures StepOk(s, Next(hash, s, a), a.HandlerRuns? && RefusedLate(s))
  {
    hide StepOk, ReceiveOk;
    if !IsReceiveStep(s, a) {
      OtherStepOk(hash, s, a);
    } else if a.Deliver? {
      if s.status == Ended {
        SlotKeptStart(s);
        SlotKeptIsOk(s, s);
      } else {
        TakesUpChunk(s, a.event.chunk);
      }
    } else {
      HandlerStepOk(hash, s, a.priv, a.now);
    }
  }

  // ---- over every run ----

  lemma {:induction false} RunReports(hash: seq<byte> -> string, s: S, actions: seq<Action>)
    requires ReceiveOk(s) && IsRun(hash, s, actions)
    ensures ReceiveOk(Run(hash, s, actions))
    decreases |actions|
  {
    if actions != [] {
      StepReports(hash, s, actions[0]);
      RunReports(hash, Next(hash, s, actions[0]), actions[1..]);
    }
  }

  /** Conservation of receives, over every run: of the offer taken last, the file is
      in the slot, being finished, or was reported over; that once or at most twice,
      and never while it is in the slot or being finished. */
  lemma ReceiveConservation(hash: seq<byte> -> string, secret: nat, inviteWindowMs: int, graceDurationMs: int,
                            token: Option<Token>, actions: seq<Action>)
    requires IsRun(hash, Fresh(secret, inviteWindowMs, graceDurationMs, token), actions)
    ensures var s := Run(hash, Fresh(secret, inviteWindowMs, graceDurationMs, token), actions);
            var underWay := s.x.receive.Some? || IsFinishing(s.handler);
            && ReceiveOk(s) && !(s.x.receive.Some? && IsFinishing(s.handler))
            && (underWay ==> HasArrival(s.log) && Outcomes(s.log) == 0)
            && (HasArrival(s.log) && !underWay ==> 1 <= Outcomes(s.log) <= 2)
  {
    FreshIsOk(secret, inviteWindowMs, graceDurationMs, token);
    RunReports(hash, Fresh(secret, inviteWindowMs, graceDurationMs, token), actions);
  }

  lemma FreshIsOk(secret: nat, inviteWindowMs: int, graceDurationMs: int, token: Option<Token>)
    ensures ReceiveOk(Fresh(secret, inviteWindowMs, graceDurationMs, token))
  {
    var s := Fresh(secret, inviteWindowMs, graceDurationMs, token);
    NothingMore([], s.log);
  }

  lemma {:induction false} ReportedOnce(hash: seq<byte> -> string, s: S, actions: seq<Action>)
    requires ReceiveOk(s) && Outcomes(s.log) == 1 && !RefusedLate(s) && IsRun(hash, s, actions)
    ensures var t := Run(hash, s, actions); SameReceive(s.log, t.log) ==> Outcomes(t.log) == 1
    decreases |actions|
  {
    if actions != [] {
      var s1, t := Next(hash, s, actions[0]), Run(hash, s, actions);
      StepReports(hash, s, actions[0]);
      LogGrows(hash, s, actions[0]);
      RunGrowsLog(hash, s1, actions[1..]);
      if SameReceive(s.log, t.log) {
        ArrivalStays(s.log, s1.log, t.log);
        ReportedOnce(hash, s1, actions[1..]);
      }
    }
  }

  lemma ArrivalStays(a: Log, b: Log, c: Log)
    requires a <= b <= c && SameReceive(a, c)
    ensures SameReceive(a, b) && SameReceive(b, c)
  {
    forall i | |a| <= i < |b| ensures !IsArrival(b[i]) {
      assert b[i] == c[i];
    }
  }

  /** Exactly: a receive that was reported over once is reported over again by some
      run if and only if a chunk that is refused is being decrypted at that moment. */
  lemma ReportedAgainIffRefusedLate(hash: seq<byte> -> string, s: S)
    requires ReceiveOk(s) && Outcomes(s.log) == 1
    ensures (exists t :: Reaches(hash, s, t) && SameReceive(s.log, t.log) && Outcomes(t.log) == 2) <==> RefusedLate(s)
  {
    if RefusedLate(s) {
      var t := ReportsAgain(hash, s);
    } else {
      forall t | Reaches(hash, s, t) && SameReceive(s.log, t.log) ensures Outcomes(t.log) == 1 {
        var actions :| IsRun(hash, s, actions) && Run(hash, s, actions) == t;
        ReportedOnce(hash, s, actions);
      }
    }
  }

  lemma ReportsAgain(hash: seq<byte> -> string, s: S) returns (t: S)
    requires ReceiveOk(s) && RefusedLate(s)
    ensures Reaches(hash, s, t) && SameReceive(s.log, t.log) && Outcomes(t.log) == 2
  {
    var job, frame := s.handler.aw.job, s.handler.aw.frame;
    t := AfterChunk(s, job, frame);
    LateReportFollows(s, job, frame);
    OneMore(s.log, Emit(FileFailed(job.r.id, Incoming, Failed)));
    LeadsBy(hash, Anything(), s, HandlerRuns(0, 0));
    LeadsReaches(hash, Anything(), s, t);
  }

  // ---- and it happens ----

  /** A session that can send takes an offer; a chunk arrives that does not decrypt;
      the receive is cancelled before that is known. */
  lemma ReportedTwiceIsReachable(hash: seq<byte> -> string) returns (s: S)
    ensures Reaches(hash, Fresh(7, 600_000, 120_000, None), s) && Outcomes(s.log) == 2
  {
    var s0 := Fresh(7, 600_000, 120_000, None);
    var s1 := SecureAndIdle(hash);
    var s2 := TakesOffer(hash, s1);
    LeadsOn(hash, Anything(), s0, s1, s2);
    var s3 := CancelsWhileDecrypting(hash, s2);
    LeadsOn(hash, Anything(), s0, s2, s3);
    var a := HandlerRuns(0, 0);
    s := Next(hash, s3, a);
    LeadsNext(hash, Anything(), s0, s3, a);
    LeadsReaches(hash, Anything(), s0, s3);
    LeadsReaches(hash, Anything(), s0, s);
    FreshIsOk(7, 600_000, 120_000, None);
    var actions :| IsRun(hash, s0, actions) && Run(hash, s0, actions) == s3;
    RunReports(hash, s0, actions);
    StepReports(hash, s3, a);
  }

  const ONE_BYTE_OFFER := FileOffer("f", "f.bin", "", 1, CHUNK_BYTES, 1)

  lemma TakesOffer(hash: seq<byte> -> string, s: S) returns (t: S)
    requires CanSend(s) && s.hs.verified && s.handler == Idle && s.x == NO_TRANSFERS
    ensures Leads(hash, Anything(), s, t)
    ensures t.status == Secure && t.hs.verified && t.handler == Idle && t.x.activeSend.None?
    ensures t.x.receive.Some? && t.x.receive.value.r.id == "f"
  {
    var a := Deliver(DataText(SealedFrame(Sealed(s.hs.key.value, Offer(ONE_BYTE_OFFER)))), 0);
    var s1 := s.(handler := Busy(Decrypting(s.hs.key.value, Sealed(s.hs.key.value, Offer(ONE_BYTE_OFFER)), [])));
    t := HandleOffer(s, ONE_BYTE_OFFER).(handler := Idle);
    OfferIsOpened(s, s1, t);
    LeadsBy(hash, Anything(), s, a);
    LeadsNext(hash, Anything(), s, s1, HandlerRuns(0, 0));
    assert ValidateOffer(ONE_BYTE_OFFER).None?;
  }

  lemma OfferIsOpened(s: S, s1: S, t: S)
    requires CanSend(s) && s.handler == Idle && t == HandleOffer(s, ONE_BYTE_OFFER).(handler := Idle)
    requires s1 == s.(handler := Busy(Decrypting(s.hs.key.value, Sealed(s.hs.key.value, Offer(ONE_BYTE_OFFER)), [])))
    ensures HandleEvent(s, DataText(SealedFrame(Sealed(s.hs.key.value, Offer(ONE_BYTE_OFFER)))), 0) == s1
    ensures AfterDecrypt(s1, s.hs.key.value, Sealed(s.hs.key.value, Offer(ONE_BYTE_OFFER)), [], 0) == t
  {
  }

  lemma CancelsWhileDecrypting(hash: seq<byte> -> string, s: S) returns (t: S)
    requires s.status == Secure && s.hs.verified && s.handler == Idle && s.x.activeSend.None?
    requires s.x.receive.Some? && s.x.receive.value.r.id == "f"
    ensures Leads(hash, Anything(), s, t) && RefusedLate(t)
  {
    var a := Deliver(DataBinary(GarbageBinary), 0);
    var s1 := s.(handler := Busy(AcceptingChunk(s.x.receive.value, GarbageBinary)));
    t := CancelFile(s1, "f");
    GarbageIsTakenUp(s);
    LeadsBy(hash, Anything(), s, a);
    CancelledIsRefusedLate(s1);
    LeadsNext(hash, Anything(), s, s1, FileCancelled("f"));
  }

  lemma GarbageIsTakenUp(s: S)
    requires s.status == Secure && s.hs.verified && s.x.receive.Some?
    ensures HandleEvent(s, DataBinary(GarbageBinary), 0)
         == s.(handler := Busy(AcceptingChunk(s.x.receive.value, GarbageBinary)))
  {
  }

  lemma CancelledIsRefusedLate(s: S)
    requires s.x.receive.Some? && s.x.receive.value.r.id == "f" && s.x.activeSend.None?
    requires s.handler == Busy(AcceptingChunk(s.x.receive.value, GarbageBinary))
    ensures RefusedLate(CancelFile(s, "f"))
  {
    var s1 := CancelInQueue(s, "f");
    assert s1.x.receive == s.x.receive && s1.handler == s.handler;
    var s2 := CancelReceive(s1, "f");
    assert s2.x.receive.None? && s2.handler == s.handler;
  }
}
