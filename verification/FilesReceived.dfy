/** Over every run: a file reported complete is exactly the bytes of the chunks that
    were accepted for it since its offer was taken. */
module FilesReceived {
  import opened Wrappers
  import opened Protocol
  import opened Base64url
  import opened Wire
  import opened FileTransfer
  import opened TransferTheorems
  import opened Session
  import opened SessionSteps
  import opened HandlerSteps
  import opened LoopSteps
  import opened SessionInvariants
  import opened ReceiveReports

  // ---- what was accepted ----

  /** The chunk is the receive's, next in order, and still fits. */
  predicate IsAccepted(job: ReceiveJob, frame: Binary) {
    && frame.SealedChunk? && frame.key == job.key && frame.id == job.r.id
    && frame.seqNo == job.r.nextSeq && job.r.bytesReceived + |frame.bytes| <= job.r.size
  }

  /** An offer was taken by this step. */
  predicate TookOffer(before: Log, after: Log) {
    |before| < |after| && exists i :: |before| <= i < |after| && IsArrival(after[i])
  }

  /** The bytes accepted since the latest offer, after one more step. */
  function Gathered(s: S, s': S, a: Action, got: seq<byte>): seq<byte> {
    if TookOffer(s.log, s'.log) then []
    else if a.HandlerRuns? && IsTaking(s.handler) && s.x.receive.Some? && IsAccepted(s.handler.aw.job, s.handler.aw.frame)
    then got + s.handler.aw.frame.bytes
    else got
  }

  function GatheredOver(hash: seq<byte> -> string, s: S, actions: seq<Action>, got: seq<byte>): seq<byte>
    requires IsRun(hash, s, actions)
    decreases |actions|
  {
    if actions == [] then got
    else
      var s1 := Next(hash, s, actions[0]);
      GatheredOver(hash, s1, actions[1..], Gathered(s, s1, actions[0], got))
  }

  /** The job holds what was accepted, and counted it. */
  predicate Holds(job: ReceiveJob, got: seq<byte>) {
    Counts(job.r) && Concat(job.r.chunks) == got && job.r.bytesReceived <= job.r.size
  }

  predicate GatherOk(s: S, got: seq<byte>) {
    && (s.x.receive.Some? ==> Holds(s.x.receive.value, got))
    && (IsTaking(s.handler) && s.x.receive.Some? ==> s.x.receive.value == s.handler.aw.job)
    && (IsFinishing(s.handler) ==> Holds(s.handler.aw.job, got))
    && (IsFinishing(s.handler) ==> s.x.receive.None?)
  }

  // ---- steps that take no part in a receive ----

  /** Neither an offer taken nor a file completed. */
  predicate SaysNeither(before: Log, after: Log) {
    before <= after && forall i :: |before| <= i < |after| ==> !IsArrival(after[i]) && !(after[i].Emit? && after[i].event.FileComplete?)
  }

  /** The receive is the same, or gone. */
  predicate SlotLeft(s: S, t: S) {
    && SaysNeither(s.log, t.log)
    && (t.x.receive == s.x.receive || t.x.receive.None?)
    && (t.handler == s.handler || !HandlerSteps.Receiving(t.handler))
  }

  ghost function LeavesSlot(s: S): Property {
    (t: S) => SlotLeft(s, t)
  }

  lemma FailAllLeavesSlot(s: S, t: S)
    requires SlotLeft(s, t)
    ensures SlotLeft(s, FailAllTransfers(t))
  {
    FailAllSaysNeither(t);
  }

  lemma FailAllSaysNeither(s: S)
    ensures var r := FailAllTransfers(s); SaysNeither(s.log, r.log) && r.x.receive.None? && r.handler == s.handler
  {
  }

  lemma SlotLeftOn(s: S, t: S, u: S)
    requires SlotLeft(s, t) && SaysNeither(t.log, u.log)
    requires u.x.receive == t.x.receive || u.x.receive.None?
    requires u.handler == t.handler || !HandlerSteps.Receiving(u.handler)
    ensures SlotLeft(s, u)
  {
  }

  lemma SilenceSaysNeither(before: Log, after: Log)
    requires SaysNoReceive(before, after)
    ensures SaysNeither(before, after)
  {
  }

  lemma StoppingLeavesSlot(s: S, t: S, reason: FailReason)
    requires SlotLeft(s, t)
    ensures SlotLeft(s, Stopped(t, reason))
  {
  }

  lemma AckFailedLeavesSlot(s: S, t: S, reason: FailReason)
    requires SlotLeft(s, t) && t.x.pendingAck.Some?
    ensures SlotLeft(s, AckFailed(t, reason))
  {
    SlotLeftOn(s, t, AckFailed(t, reason));
  }

  lemma SecuringLeavesSlot(s: S, t: S)
    requires SlotLeft(s, t)
    ensures SlotLeft(s, BecomeSecure(t))
  {
    SlotLeftOn(s, t, BecomeSecure(t));
  }

  lemma LeavesSlotIsClosed(s: S)
    ensures ClosedUnderProgress(LeavesSlot(s)) && ClosedUnderSecuring(LeavesSlot(s)) && ClosedUnderTokens(LeavesSlot(s))
  {
    forall t, u | SlotLeft(s, t) && (Hushed(t, u) || Progresses(t, u)) ensures SlotLeft(s, u) {
      SilenceSaysNeither(t.log, u.log);
      SlotLeftOn(s, t, u);
    }
    forall t: S | SlotLeft(s, t) ensures SlotLeft(s, FailAllTransfers(t)) {
      FailAllLeavesSlot(s, t);
    }
    forall t: S, reason | SlotLeft(s, t) ensures SlotLeft(s, Stopped(t, reason)) {
      StoppingLeavesSlot(s, t, reason);
    }
    forall t: S, reason | t.x.pendingAck.Some? && SlotLeft(s, t) ensures SlotLeft(s, AckFailed(t, reason)) {
      AckFailedLeavesSlot(s, t, reason);
    }
    forall t: S | SlotLeft(s, t) ensures SlotLeft(s, BecomeSecure(t)) {
      SecuringLeavesSlot(s, t);
    }
  }

  lemma QueueStepLeavesSlot(hash: seq<byte> -> string, s: S, a: Action)
    requires Enabled(s, a) && IsQueueStep(a) && !a.FileCancelled?
    ensures SlotLeft(s, Next(hash, s, a))
  {
    var s' := Next(hash, s, a);
    SendsSurvive(s);
    QueueStepKeeps(hash, s, a, AnyLoop(), AnyQueued(), NotOfReceives());
    QueueStepIsTransfers(hash, s, a);
    if a.FileOffered? {
      OfferKeepsReceive(s, a.src);
    } else if a.LoopRunsOn? {
      LoopKeepsReceive(s, a.loop, a.readOk, a.buffered);
    }
    assert forall i :: |s.log| <= i < |s'.log| ==> NotOfReceives()(s'.log[i]);
    SilenceSaysNeither(s.log, s'.log);
  }

  lemma CancelLeavesSlot(s: S, id: string)
    ensures SlotLeft(s, CancelFile(s, id))
  {
    if ActiveId(s.x) != Some(id) {
      var s1 := CancelInQueue(s, id);
      var s2 := CancelReceive(s1, id);
      SlotLeftOn(s, s1, s2);
      SlotLeftOn(s, s2, CancelPendingAck(s2, id, Cancelled));
    }
  }

  lemma AppLeavesSlot(hash: seq<byte> -> string, s: S, a: Action)
    requires Enabled(s, a) && (a.AppSends? || a.EndTailRuns?)
    ensures SlotLeft(s, Next(hash, s, a))
  {
  }

  lemma OtherStepLeavesSlot(hash: seq<byte> -> string, s: S, a: Action)
    requires Enabled(s, a) && !IsReceiveStep(s, a)
    ensures SlotLeft(s, Next(hash, s, a))
  {
    if a.FileCancelled? {
      CancelLeavesSlot(s, a.id);
    } else if IsQueueStep(a) {
      QueueStepLeavesSlot(hash, s, a);
    } else if IsSendStep(a) {
      AppLeavesSlot(hash, s, a);
    } else {
      LeavesSlotIsClosed(s);
      StepKeeps(LeavesSlot(s), hash, s, a);
    }
  }

  // ---- every step ----

  /** Only what was accepted is ever reported complete. */
  predicate CompletesWith(before: Log, after: Log, got: seq<byte>) {
    && before <= after
    && forall i :: |before| <= i < |after| && after[i].Emit? && after[i].event.FileComplete? ==> after[i].event.file == got
  }

  predicate GatherStep(s: S, s': S, a: Action, got: seq<byte>) {
    GatherOk(s', Gathered(s, s', a, got)) && CompletesWith(s.log, s'.log, got)
  }

  lemma SlotLeftGathers(s: S, s': S, a: Action, got: seq<byte>)
    requires GatherOk(s, got) && SlotLeft(s, s')
    requires !(a.HandlerRuns? && IsTaking(s.handler) && s.x.receive.Some? && IsAccepted(s.handler.aw.job, s.handler.aw.frame))
    ensures GatherStep(s, s', a, got)
  {
  }

  lemma FreshJobHolds(o: FileOffer, key: Key)
    requires o.size >= 0
    ensures Holds(ReceiveJob(NewReceiver(o), key), [])
  {
  }

  lemma OtherStepGathers(hash: seq<byte> -> string, s: S, a: Action, got: seq<byte>)
    requires GatherOk(s, got) && Enabled(s, a) && !IsReceiveStep(s, a)
    ensures GatherStep(s, Next(hash, s, a), a, got)
  {
    OtherStepLeavesSlot(hash, s, a);
    SlotLeftGathers(s, Next(hash, s, a), a, got);
  }

  lemma ArrivingGathers(s: S, frame: Binary, a: Action, got: seq<byte>)
    requires GatherOk(s, got) && a.Deliver? && s.handler == Idle
    ensures GatherStep(s, HandleBinary(s, frame), a, got)
  {
  }

  lemma ChunkGathers(s: S, a: Action, got: seq<byte>)
    requires GatherOk(s, got) && a.HandlerRuns? && IsTaking(s.handler)
    ensures GatherStep(s, AfterChunk(s, s.handler.aw.job, s.handler.aw.frame), a, got)
  {
    var job, frame := s.handler.aw.job, s.handler.aw.frame;
    var s' := AfterChunk(s, job, frame);
    if frame.OtherBinaryVersion? {
      LeavesSlotIsClosed(s);
      HandlerFails(LeavesSlot(s), s, VersionMismatch);
      SlotLeftGathers(s, s', a, got);
    } else if s.x.receive.Some? && IsAccepted(job, frame) {
      AcceptedGathers(s, job, frame, a, got);
    } else {
      NotAcceptedGathers(s, job, frame, a, got);
    }
  }

  lemma AcceptedGathers(s: S, job: ReceiveJob, frame: Binary, a: Action, got: seq<byte>)
    requires GatherOk(s, got) && a.HandlerRuns? && s.handler == Busy(AcceptingChunk(job, frame))
    requires s.x.receive.Some? && IsAccepted(job, frame)
    ensures GatherStep(s, AfterChunk(s, job, frame), a, got)
  {
    hide AfterChunk, AcceptChunk, Concat;
    AcceptedIsAppended(job.r, frame.id, frame.seqNo, frame.bytes);
    AcceptedIsKept(s, job, frame);
    StillFits(job, frame);
  }

  lemma StillFits(job: ReceiveJob, frame: Binary)
    requires IsAccepted(job, frame)
    ensures var (r, a) := AcceptChunk(job.r, frame.id, frame.seqNo, frame.bytes);
            a.Accepted? && r.bytesReceived <= r.size && r.id == job.r.id && r.size == job.r.size
  {
  }

  lemma AcceptedIsKept(s: S, job: ReceiveJob, frame: Binary)
    requires s.x.receive.Some? && IsAccepted(job, frame)
    ensures var r := AcceptChunk(job.r, frame.id, frame.seqNo, frame.bytes).0;
            var s' := AfterChunk(s, job, frame);
            && s'.x.receive == Some(job.(r := r)) && s'.handler == Idle
            && s'.log == s.log + [Emit(FileProgress(job.r.id, Incoming, job.r.bytesReceived + |frame.bytes|, job.r.size))]
  {
  }

  lemma NotAcceptedGathers(s: S, job: ReceiveJob, frame: Binary, a: Action, got: seq<byte>)
    requires GatherOk(s, got) && a.HandlerRuns? && s.handler == Busy(AcceptingChunk(job, frame))
    requires !frame.OtherBinaryVersion? && !(s.x.receive.Some? && IsAccepted(job, frame))
    ensures GatherStep(s, AfterChunk(s, job, frame), a, got)
  {
    NotAcceptedLeaves(s, job, frame);
    SlotLeftGathers(s, AfterChunk(s, job, frame), a, got);
  }

  lemma NotAcceptedLeaves(s: S, job: ReceiveJob, frame: Binary)
    requires s.handler == Busy(AcceptingChunk(job, frame)) && (s.x.receive.Some? ==> s.x.receive.value == job)
    requires !frame.OtherBinaryVersion? && !(s.x.receive.Some? && IsAccepted(job, frame))
    ensures SlotLeft(s, AfterChunk(s, job, frame))
  {
    hide SlotLeft, FailReceive, Took;
    RefusedLeaves(s, job.r.id);
    if frame.SealedChunk? && frame.key == job.key {
      var (r, a) := AcceptChunk(job.r, frame.id, frame.seqNo, frame.bytes);
      if a.NoMatch? || a.Accepted? {
        TookLeaves(s, job.(r := r), a);
      }
    }
  }

  lemma RefusedLeaves(s: S, id: string)
    ensures SlotLeft(s, FailReceive(s.(handler := Idle), id, Failed))
  {
  }

  lemma TookLeaves(s: S, job: ReceiveJob, a: Accept)
    requires a.NoMatch? || a.Accepted?
    requires s.x.receive.Some? ==> s.x.receive.value == job
    ensures SlotLeft(s, Took(s.(handler := Idle), job, a))
  {
  }

  lemma FinishGathers(hash: seq<byte> -> string, s: S, job: ReceiveJob, sha256: string, rest: seq<Cipher>, a: Action, got: seq<byte>)
    requires GatherOk(s, got) && a.HandlerRuns? && s.handler == Busy(FinishingFile(job, sha256, rest))
    ensures GatherStep(s, AfterFinish(hash, s, job, sha256, rest), a, got)
  {
    FinishIsExact(job.r, hash, sha256);
    FinishSaysOneThing(hash, s, job, sha256, rest);
  }

  lemma FinishSaysOneThing(hash: seq<byte> -> string, s: S, job: ReceiveJob, sha256: string, rest: seq<Cipher>)
    ensures var s' := AfterFinish(hash, s, job, sha256, rest);
            var file := FileTransfer.Finish(job.r, hash, sha256);
            && s'.x == s.x && !HandlerSteps.Receiving(s'.handler)
            && s'.log == s.log + [Emit(if file.Some? then FileComplete(job.r.id, file.value) else FileFailed(job.r.id, Incoming, Failed))]
  {
  }

  lemma DoneGathers(s: S, t: S, id: string, sha256: string, rest: seq<Cipher>, a: Action, got: seq<byte>)
    requires GatherOk(s, got) && a.HandlerRuns? && !HandlerSteps.Receiving(s.handler) && t == s.(handler := Idle)
    ensures GatherStep(s, StartFinish(t, id, sha256, rest), a, got)
  {
  }

  lemma OfferGathers(s: S, t: S, o: FileOffer, rest: seq<Cipher>, a: Action, got: seq<byte>)
    requires GatherOk(s, got) && a.HandlerRuns? && !HandlerSteps.Receiving(s.handler) && t == s.(handler := Idle)
    ensures GatherStep(s, NextBuffered(HandleOffer(t, o), rest), a, got)
  {
    hide HandleOffer, NextBuffered;
    var u := HandleOffer(t, o);
    OfferIsTaken(t, o);
    NextBufferedIsQuiet(u, rest);
    if u != t {
      FreshJobHolds(o, t.hs.key.value);
      assert u.log[|s.log|] == Emit(FileIncoming(o.id, o.name, o.mime, o.size));
    }
  }

  lemma OfferIsTaken(s: S, o: FileOffer)
    ensures var u := HandleOffer(s, o);
            u != s ==>
              && o.size >= 0 && s.hs.key.Some? && u.x.receive == Some(ReceiveJob(NewReceiver(o), s.hs.key.value))
              && u.log == s.log + [Emit(FileIncoming(o.id, o.name, o.mime, o.size))]
  {
  }

  lemma NextBufferedIsQuiet(s: S, rest: seq<Cipher>)
    ensures var t := NextBuffered(s, rest); t.x == s.x && t.log == s.log && !HandlerSteps.Receiving(t.handler)
  {
  }

  lemma CancelGathers(s: S, t: S, id: string, reason: CancelReason, rest: seq<Cipher>, a: Action, got: seq<byte>)
    requires GatherOk(s, got) && a.HandlerRuns? && !HandlerSteps.Receiving(s.handler) && t == s.(handler := Idle)
    ensures GatherStep(s, NextBuffered(HandleFileCancel(t, id, reason), rest), a, got)
  {
    hide HandleFileCancel, NextBuffered;
    var u := HandleFileCancel(t, id, reason);
    PeerCancelLeavesSlot(t, id, reason);
    SlotLeftOn(s, t, u);
    NextBufferedLeavesSlot(s, u, rest);
    SlotLeftGathers(s, NextBuffered(u, rest), a, got);
  }

  lemma PeerCancelLeavesSlot(s: S, id: string, reason: CancelReason)
    ensures var r := HandleFileCancel(s, id, reason);
            SaysNeither(s.log, r.log) && (r.x.receive == s.x.receive || r.x.receive.None?) && r.handler == s.handler
  {
    hide StopActive;
    StopKeepsReceive(s.x, CancelReasonOf(reason));
  }

  lemma StopKeepsReceive(x: Transfers, reason: FailReason)
    ensures StopActive(x, reason).receive == x.receive
  {
  }

  lemma NextBufferedLeavesSlot(s: S, t: S, rest: seq<Cipher>)
    requires SlotLeft(s, t)
    ensures SlotLeft(s, NextBuffered(t, rest))
  {
  }

  lemma OpensGathers(s: S, key: Key, cipher: Cipher, rest: seq<Cipher>, a: Action, now: int, got: seq<byte>)
    requires GatherOk(s, got) && a.HandlerRuns? && s.handler == Busy(Decrypting(key, cipher, rest)) && TouchesReceive(s.handler)
    ensures GatherStep(s, AfterDecrypt(s, key, cipher, rest, now), a, got)
  {
    hide GatherStep, GatherOk, StartFinish, HandleOffer, HandleFileCancel, NextBuffered;
    var p := Decrypt(key, cipher).value;
    var t := s.(handler := Idle);
    match p {
      case FileDone(id, sha256) => DoneGathers(s, t, id, sha256, rest, a, got);
      case Offer(o) => OfferGathers(s, t, o, rest, a, got);
      case FileCancel(id, reason) => CancelGathers(s, t, id, reason, rest, a, got);
    }
  }

  lemma HandlerGathers(hash: seq<byte> -> string, s: S, a: Action, got: seq<byte>)
    requires GatherOk(s, got) && a.HandlerRuns? && s.handler.Busy? && TouchesReceive(s.handler)
    ensures GatherStep(s, ResumeHandler(hash, s, a.priv, a.now), a, got)
  {
    hide GatherStep, GatherOk, AfterChunk, AfterFinish, AfterDecrypt;
    match s.handler.aw {
      case AcceptingChunk(_, _) => ChunkGathers(s, a, got);
      case FinishingFile(job, sha256, rest) => FinishGathers(hash, s, job, sha256, rest, a, got);
      case Decrypting(key, cipher, rest) => OpensGathers(s, key, cipher, rest, a, a.now, got);
    }
  }

  /** Every step: what the receive holds is what was accepted for it, and nothing else
      is reported complete. */
  lemma StepGathers(hash: seq<byte> -> string, s: S, a: Action, got: seq<byte>)
    requires GatherOk(s, got) && Enabled(s, a)
    ensures GatherStep(s, Next(hash, s, a), a, got)
  {
    hide GatherStep, GatherOk;
    if !IsReceiveStep(s, a) {
      OtherStepGathers(hash, s, a, got);
    } else if a.HandlerRuns? {
      HandlerGathers(hash, s, a, got);
    } else if s.status == Ended {
      StayingGathers(s, a, got);
    } else {
      ArrivingGathers(s, a.event.chunk, a, got);
    }
  }

  lemma StayingGathers(s: S, a: Action, got: seq<byte>)
    requires GatherOk(s, got) && a.Deliver?
    ensures GatherStep(s, s, a, got)
  {
  }

  // ---- over every run ----

  lemma {:induction false} RunGathers(hash: seq<byte> -> string, s: S, actions: seq<Action>, got: seq<byte>)
    requires GatherOk(s, got) && IsRun(hash, s, actions)
    ensures GatherOk(Run(hash, s, actions), GatheredOver(hash, s, actions, got))
    decreases |actions|
  {
    if actions != [] {
      var s1 := Next(hash, s, actions[0]);
      StepGathers(hash, s, actions[0], got);
      RunGathers(hash, s1, actions[1..], Gathered(s, s1, actions[0], got));
    }
  }

  /** Over every run of a new session: what is in the receive slot is what was accepted
      since its offer was taken, and whatever step reports a file complete reports
      exactly those bytes. */
  lemma CompleteIsWhatWasAccepted(hash: seq<byte> -> string, secret: nat, inviteWindowMs: int, graceDurationMs: int,
                                  token: Option<Token>, actions: seq<Action>, a: Action)
    requires var s := Fresh(secret, inviteWindowMs, graceDurationMs, token);
             IsRun(hash, s, actions) && Enabled(Run(hash, s, actions), a)
    ensures var s := Fresh(secret, inviteWindowMs, graceDurationMs, token);
            var t := Run(hash, s, actions);
            var got := GatheredOver(hash, s, actions, []);
            && (t.x.receive.Some? ==> Concat(t.x.receive.value.r.chunks) == got)
            && CompletesWith(t.log, Next(hash, t, a).log, got)
  {
    var s := Fresh(secret, inviteWindowMs, graceDurationMs, token);
    RunGathers(hash, s, actions, []);
    StepGathers(hash, Run(hash, s, actions), a, GatheredOver(hash, s, actions, []));
  }
}
