/** What a session still reports after it has ended, and exactly when. */
module AfterEnd {
  import opened Wrappers
  import opened Protocol
  import opened Base64url
  import opened Wire
  import opened FileTransfer
  import opened Session
  import opened SessionSteps
  import opened HandlerSteps
  import opened LoopSteps
  import opened Reachability
  import opened SessionInvariants
  import opened SendDiscipline
  import opened SendTheorems
  import opened KeyChange

  // ---- ending clears the queue and the receive slot ----

  /** The drain loop has a transfer in its hands. */
  predicate HasLive(x: Transfers) {
    exists id :: id in x.loops && !x.loops[id].Exiting?
  }

  /** Once ended, nothing is queued or being received, and a transfer awaits its ack
      only if the drain loop has nothing more to do. */
  predicate EndsCleared(s: S) {
    s.status == Ended ==> s.x.queue == [] && s.x.receive.None? && (s.x.pendingAck.Some? ==> !HasLive(s.x))
  }

  ghost function ClearedOnceEnded(): Property {
    (s: S) => EndsCleared(s)
  }

  lemma FailAllClears(s: S)
    ensures EndsCleared(FailAllTransfers(s))
  {
  }

  lemma ClearedIsClosed()
    ensures ClosedUnderProgress(ClearedOnceEnded()) && ClosedUnderSecuring(ClearedOnceEnded())
    ensures ClosedUnderTokens(ClearedOnceEnded())
  {
    forall s: S | EndsCleared(s) ensures EndsCleared(FailAllTransfers(s)) {
      FailAllClears(s);
    }
    forall s: S, reason | EndsCleared(s) ensures EndsCleared(Stopped(s, reason)) {
      StoppingLeavesQueue(s, reason);
    }
    forall s: S | EndsCleared(s) ensures EndsCleared(BecomeSecure(s)) {
      SecuringIsSecure(s);
    }
  }

  lemma StoppingLeavesQueue(s: S, reason: FailReason)
    ensures var r := Stopped(s, reason); r.status == s.status && r.x.queue == s.x.queue && r.x.receive == s.x.receive
    ensures Stopped(s, reason).x.pendingAck == s.x.pendingAck && (HasLive(Stopped(s, reason).x) ==> HasLive(s.x))
  {
    var x := StopActive(s.x, reason);
    assert forall id :: id in x.loops && !x.loops[id].Exiting? ==> id in s.x.loops && !s.x.loops[id].Exiting?;
  }

  lemma SecuringIsSecure(s: S)
    ensures BecomeSecure(s).status == Secure
  {
  }

  lemma ReceiveStepClears(hash: seq<byte> -> string, s: S, a: Action)
    requires s.status != Ended && Enabled(s, a) && IsReceiveStep(s, a)
    ensures EndsCleared(Next(hash, s, a))
  {
    hide AfterChunk, AfterDecrypt;
    if a.HandlerRuns? {
      match s.handler.aw {
        case AcceptingChunk(job, frame) => ChunkClears(s, job, frame);
        case FinishingFile(_, _, _) =>
        case Decrypting(key, cipher, rest) => OpenedFrameClears(s, key, cipher, rest, a.now);
      }
    }
  }

  lemma ChunkClears(s: S, job: ReceiveJob, frame: Binary)
    requires s.status != Ended
    ensures EndsCleared(AfterChunk(s, job, frame))
  {
    if frame.OtherBinaryVersion? {
      ClearedIsClosed();
      HandlerFails(ClearedOnceEnded(), s, VersionMismatch);
    } else {
      ChunkIsTransfers(s.(handler := Idle), job, frame);
    }
  }

  lemma OpenedFrameClears(s: S, key: Key, cipher: Cipher, rest: seq<Cipher>, now: int)
    requires s.status != Ended && s.handler == Busy(Decrypting(key, cipher, rest)) && TouchesReceive(s.handler)
    ensures AfterDecrypt(s, key, cipher, rest, now).status != Ended
  {
    var p := Decrypt(key, cipher).value;
    var s1 := s.(handler := Idle);
    match p {
      case FileDone(_, _) =>
      case Offer(o) => OfferIsTransfers(s1, o);
      case FileCancel(id, reason) => FileCancelIsTransfers(s1, id, reason);
    }
  }

  lemma EndingClears(hash: seq<byte> -> string, s: S, a: Action)
    requires s.status != Ended && Enabled(s, a)
    ensures EndsCleared(Next(hash, s, a))
  {
    if IsQueueStep(a) {
      QueueStepIsTransfers(hash, s, a);
    } else if IsReceiveStep(s, a) {
      ReceiveStepClears(hash, s, a);
    } else if !IsSendStep(a) {
      ClearedIsClosed();
      StepKeeps(ClearedOnceEnded(), hash, s, a);
    }
  }

  // ---- what the handler of an ended session still does ----

  /** What is still being done for a receive, when the session has ended: the verdict
      on a file, or on a chunk of it. */
  predicate ReceiveUnsettled(h: Handler) {
    && h.Busy?
    && (|| h.aw.FinishingFile?
        || (h.aw.AcceptingChunk? && Reports(h.aw.job, h.aw.frame)))
  }

  /** The chunk is taken, or the receive fails for it. */
  predicate Reports(job: ReceiveJob, frame: Binary) {
    && !frame.OtherBinaryVersion?
    && (frame.SealedChunk? && frame.key == job.key ==> frame.id == job.r.id)
  }

  /** A report on a file being sent, or received. */
  predicate IsReport(e: Entry, d: Direction) {
    && e.Emit?
    && match e.event
       case FileIncoming(_, _, _, _) => d == Incoming
       case FileComplete(_, _) => d == Incoming
       case FileProgress(_, direction, _, _) => direction == d
       case FileFailed(_, direction, _) => direction == d
       case _ => false
  }

  predicate EndedIdle(s: S) {
    Inv(s) && s.status == Ended && s.x.queue == [] && s.x.receive.None?
  }

  lemma EndedDecrypt(s: S, key: Key, cipher: Cipher, rest: seq<Cipher>, now: int)
    requires EndedIdle(s) && s.handler == Busy(Decrypting(key, cipher, rest))
    ensures AfterDecrypt(s, key, cipher, rest, now) == s.(handler := Idle)
  {
  }

  lemma EndedHandshake(hash: seq<byte> -> string, s: S, priv: nat, now: int)
    requires EndedIdle(s) && Handshaking(s.handler)
    ensures var r := ResumeHandler(hash, s, priv, now); r == s.(hs := r.hs, handler := r.handler) && !Receiving(r.handler)
  {
  }

  /** Only the log grew, by a report on a file of that direction. */
  predicate OneReport(s: S, r: S, d: Direction) {
    && r == s.(handler := Idle, log := r.log)
    && |r.log| == |s.log| + 1 && s.log <= r.log && IsReport(r.log[|s.log|], d)
  }

  lemma RefusalReports(s: S, id: string)
    requires s.x.receive.None?
    ensures OneReport(s, FailReceive(s.(handler := Idle), id, Failed), Incoming)
  {
  }

  lemma TakingReports(s: S, job: ReceiveJob, a: Accept)
    requires s.x.receive.None? && (a.NoMatch? || a.Accepted?)
    ensures var r := Took(s.(handler := Idle), job, a);
            if a.Accepted? then OneReport(s, r, Incoming) else r == s.(handler := Idle)
  {
  }

  lemma EndedChunk(s: S, job: ReceiveJob, frame: Binary)
    requires EndedIdle(s) && s.handler == Busy(AcceptingChunk(job, frame))
    ensures var r := AfterChunk(s, job, frame);
            if Reports(job, frame) then OneReport(s, r, Incoming) else r == s.(handler := Idle)
  {
    hide OneReport, Inv, FailReceive, Took;
    if !frame.OtherBinaryVersion? {
      RefusalReports(s, job.r.id);
      if frame.SealedChunk? && frame.key == job.key {
        var (r, a) := AcceptChunk(job.r, frame.id, frame.seqNo, frame.bytes);
        if a.NoMatch? || a.Accepted? {
          TakingReports(s, job.(r := r), a);
        }
      }
    }
  }

  lemma EndedFinish(hash: seq<byte> -> string, s: S, job: ReceiveJob, sha256: string, rest: seq<Cipher>)
    requires EndedIdle(s) && s.handler == Busy(FinishingFile(job, sha256, rest))
    ensures OneReport(s, AfterFinish(hash, s, job, sha256, rest), Incoming)
  {
  }

  /** It reports on the receive it is at, and nothing else. */
  lemma EndedHandlerStep(hash: seq<byte> -> string, s: S, priv: nat, now: int)
    requires EndedIdle(s) && s.handler.Busy?
    ensures var r := ResumeHandler(hash, s, priv, now);
            && r == s.(hs := r.hs, handler := r.handler, log := r.log) && !Receiving(r.handler)
            && (if ReceiveUnsettled(s.handler)
                then |r.log| == |s.log| + 1 && s.log <= r.log && IsReport(r.log[|s.log|], Incoming)
                else r.log == s.log)
  {
    hide AfterDecrypt, AfterChunk, AfterFinish;
    match s.handler.aw {
      case Decrypting(key, cipher, rest) => EndedDecrypt(s, key, cipher, rest, now);
      case AcceptingChunk(job, frame) => EndedChunk(s, job, frame);
      case FinishingFile(job, sha256, rest) => EndedFinish(hash, s, job, sha256, rest);
      case _ => EndedHandshake(hash, s, priv, now);
    }
  }

  // ---- what its drain loop still does ----

  /** What is still being done for a send: the drain loop has one in its hands, or one
      awaits its ack. */
  predicate SendUnsettled(x: Transfers) {
    x.pendingAck.Some? || HasLive(x)
  }

  ghost predicate EndedOk(s: S) {
    Sound(s) && s.status == Ended && EndsCleared(s)
  }

  /** What a step of an ended session does to the sends: it reports at most one, and
      only if that settles them; settled they stay. */
  predicate SendsStep(s: S, s': S) {
    && s'.handler == s.handler && s.log <= s'.log
    && s'.x.queue == [] && s'.x.receive.None? && (s'.x.pendingAck.Some? ==> !HasLive(s'.x))
    && (!SendUnsettled(s.x) ==> !SendUnsettled(s'.x))
    && (|| SaysNothing(s.log, s'.log)
        || (|s'.log| == |s.log| + 1 && IsFailedSend(s'.log[|s.log|]) && SendUnsettled(s.x) && !SendUnsettled(s'.x)))
  }

  predicate SaysNothing(before: Log, after: Log) {
    before <= after && forall i :: |before| <= i < |after| ==> !after[i].Emit?
  }

  predicate IsFailedSend(e: Entry) {
    e.Emit? && e.event.FileFailed? && e.event.direction == Outgoing
  }

  /** There is no other loop. */
  lemma OnlyLoop(x: Transfers, id: nat, l: Loop)
    requires LoopsOk(x) && id in x.loops
    ensures HasLive(PutLoop(x, id, l)) <==> !l.Exiting?
    ensures HasLive(x) <==> !x.loops[id].Exiting?
  {
    RunningIsCurrent(x, id);
    assert forall k :: k in x.loops ==> k in x.loops.Keys;
    assert id in PutLoop(x, id, l).loops;
  }

  /** The loop puts its transfer behind it; the queue being empty it is done. */
  function Dropped(s: S, id: nat, b: Block, failed: Option<FailReason>): S {
    var s1 := Settled(s, b, failed);
    s1.(x := PutLoop(s1.x, id, Exiting))
  }

  lemma DroppedAtTop(s: S, id: nat, b: Block, failed: Option<FailReason>)
    requires s.x.queue == []
    ensures LoopTop(Settled(s, b, failed), id) == Dropped(s, id, b, failed)
  {
  }

  lemma DroppedReports(s: S, t: S, id: nat, b: Block, reason: FailReason)
    requires EndedOk(s) && id in s.x.loops && !s.x.loops[id].Exiting?
    requires t == s.(x := s.x.(activeSend := t.x.activeSend))
    ensures SendsStep(s, Dropped(t, id, b, Some(reason)))
  {
    OnlyLoop(s.x, id, Exiting);
    assert HasLive(Dropped(t, id, b, Some(reason)).x) ==> HasLive(PutLoop(s.x, id, Exiting));
  }

  lemma DroppedAwaitsAck(s: S, t: S, id: nat, b: Block)
    requires EndedOk(s) && id in s.x.loops && !s.x.loops[id].Exiting?
    requires t == s.(x := s.x.(activeSend := None, pendingAck := t.x.pendingAck))
    ensures SendsStep(s, Dropped(t, id, b, None))
  {
    OnlyLoop(s.x, id, Exiting);
    assert HasLive(Dropped(t, id, b, None).x) ==> HasLive(PutLoop(s.x, id, Exiting));
  }

  lemma EndedRead(s: S, id: nat, ok: bool)
    requires EndedOk(s) && id in s.x.loops && s.x.loops[id].Reading?
    ensures SendsStep(s, AfterRead(s, id, ok))
  {
    var l := s.x.loops[id];
    if ok {
      OnlyLoop(s.x, id, Running(l.src, l.key, l.ticket, STARTED, None, []));
    } else {
      DroppedAtTop(s, id, Block(l.src, l.ticket, []), Some(Failed));
      DroppedReports(s, s, id, Block(l.src, l.ticket, []), Failed);
    }
  }

  lemma EndedJobEnds(s: S, id: nat)
    requires EndedOk(s) && id in s.x.loops && s.x.loops[id].Running? && !Suspended(s.x.loops[id].job)
    ensures SendsStep(s, JobEnded(s, id))
  {
    hide SendsStep;
    var l := s.x.loops[id];
    var b := Block(l.src, l.ticket, l.sent);
    var s1 := s.(x := s.x.(activeSend := None));
    if l.job.at == Returned(true) {
      var s2 := s1.(x := s1.x.(pendingAck := Some(l.src.id)));
      DroppedAtTop(s2, id, b, None);
      DroppedAwaitsAck(s, s2, id, b);
    } else {
      DroppedAtTop(s1, id, b, Some(WhyFailed(s, l.job)));
      DroppedReports(s, s1, id, b, WhyFailed(s, l.job));
    }
  }

  lemma EndedJobRuns(s: S, id: nat, buffered: int)
    requires EndedOk(s) && id in s.x.loops && JobCanRun(s.x.loops[id])
    ensures SendsStep(s, JobRunsOn(s, id, buffered))
  {
    var l := s.x.loops[id];
    CalmPerLoop(s.x);
    assert CalmLoops()(l);
    OnlyLoop(s.x, id, RanOn(s, l, buffered));
    CalmJobSaysNothing(s, l, buffered);
  }

  lemma CalmJobSaysNothing(s: S, l: Loop, buffered: int)
    requires !CanSend(s) && CalmLoop(l) && JobCanRun(l)
    ensures forall i :: 0 <= i < |RanLog(s, l, buffered)| ==> !RanLog(s, l, buffered)[i].Emit?
  {
  }

  lemma EndedLoopExits(s: S, id: nat)
    requires EndedOk(s) && id in s.x.loops && s.x.loops[id].Exiting?
    ensures SendsStep(s, LoopExits(s, id))
  {
    OnlyLoop(s.x, id, Exiting);
  }

  lemma EndedLoopStep(s: S, id: nat, readOk: bool, buffered: int)
    requires EndedOk(s) && LoopCanRun(s, id)
    ensures SendsStep(s, LoopRuns(s, id, readOk, buffered))
  {
    hide AfterRead, LoopExits, JobRunsOn, JobEnded, SendsStep, EndedOk;
    match s.x.loops[id] {
      case Reading(_, _, _) => EndedRead(s, id, readOk);
      case Exiting => EndedLoopExits(s, id);
      case Running(_, _, _, job, _, _) =>
        if Suspended(job) { EndedJobRuns(s, id, buffered); } else { EndedJobEnds(s, id); }
    }
  }

  // ---- every step ----

  lemma EndedCancel(s: S, id: string)
    requires EndedOk(s)
    ensures SendsStep(s, CancelFile(s, id))
  {
    if ActiveId(s.x) == Some(id) {
      StoppingLeavesQueue(s, Cancelled);
      assert CancelFile(s, id).x == Stopped(s, Cancelled).x;
    } else {
      assert CancelInQueue(s, id) == s && CancelReceive(s, id) == s;
      EndedAckCancelled(s, id);
    }
  }

  lemma EndedAckCancelled(s: S, id: string)
    requires EndedOk(s)
    ensures SendsStep(s, CancelPendingAck(s, id, Cancelled))
  {
    hide Sound;
    assert forall a :: HasLive(s.x.(pendingAck := a)) ==> HasLive(s.x);
  }

  lemma EndedDrains(s: S)
    requires EndedOk(s)
    ensures SendsStep(s, BufferLow(s))
  {
    var x := BufferLow(s).x;
    assert forall id :: id in x.loops && !x.loops[id].Exiting? ==> id in s.x.loops && !s.x.loops[id].Exiting?;
  }

  /** Nothing is reported, transfers and handler are left alone. */
  predicate Idles(s: S, s': S) {
    s'.x == s.x && s'.handler == s.handler && SaysNothing(s.log, s'.log)
  }

  lemma EndedElse(hash: seq<byte> -> string, s: S, a: Action)
    requires EndedOk(s) && Enabled(s, a) && !a.HandlerRuns?
    requires !IsQueueStep(a) || a.FileOffered?
    ensures Idles(s, Next(hash, s, a))
  {
    PendingMatchesStatus(s);
  }

  lemma EndedSendStep(hash: seq<byte> -> string, s: S, a: Action)
    requires EndedOk(s) && Enabled(s, a) && !a.HandlerRuns?
    ensures SendsStep(s, Next(hash, s, a))
  {
    hide CancelFile, LoopRuns, BufferLow;
    if a.FileCancelled? {
      EndedCancel(s, a.id);
    } else if a.LoopRunsOn? {
      EndedLoopStep(s, a.loop, a.readOk, a.buffered);
    } else if a.ChannelDrained? {
      EndedDrains(s);
    } else {
      EndedElse(hash, s, a);
      IdlingIsSendsStep(s, Next(hash, s, a));
    }
  }

  lemma IdlingIsSendsStep(s: S, s': S)
    requires EndedOk(s) && Idles(s, s')
    ensures SendsStep(s, s')
  {
  }

  predicate Unsettled(s: S, d: Direction) {
    if d == Outgoing then SendUnsettled(s.x) else ReceiveUnsettled(s.handler)
  }

  /** A file of that direction was reported on since. */
  predicate ReportsSince(before: Log, after: Log, d: Direction) {
    exists i :: |before| <= i < |after| && IsReport(after[i], d)
  }

  /** Nothing was emitted since but failed sends and reports on a receive. */
  predicate OnlyReports(before: Log, after: Log) {
    && before <= after
    && forall i :: |before| <= i < |after| && after[i].Emit? ==> IsFailedSend(after[i]) || IsReport(after[i], Incoming)
  }

  predicate AtMostOneReport(before: Log, after: Log, d: Direction) {
    forall i, j :: |before| <= i < j < |after| ==> !IsReport(after[i], d) || !IsReport(after[j], d)
  }

  /** A step reports only what it settles, and leaves settled what is. */
  predicate Settling(s: S, s': S, d: Direction) {
    && AtMostOneReport(s.log, s'.log, d)
    && (ReportsSince(s.log, s'.log, d) ==> Unsettled(s, d) && !Unsettled(s', d))
    && (!Unsettled(s, d) ==> !Unsettled(s', d))
  }

  lemma SendsStepSettles(s: S, s': S, d: Direction)
    requires SendsStep(s, s')
    ensures Settling(s, s', d) && OnlyReports(s.log, s'.log)
  {
  }

  lemma EndedStep(hash: seq<byte> -> string, s: S, a: Action, d: Direction)
    requires EndedOk(s) && Enabled(s, a)
    ensures var s' := Next(hash, s, a); EndedOk(s') && Settling(s, s', d) && OnlyReports(s.log, s'.log)
  {
    hide Sound, SendsStep, Settling;
    NextKeepsSound(hash, s, a);
    if a.HandlerRuns? {
      HandlerSettles(hash, s, a.priv, a.now, d);
    } else {
      EndedSendStep(hash, s, a);
      SendsStepSettles(s, Next(hash, s, a), d);
      SendsStepKeepsCleared(hash, s, a);
    }
  }

  lemma SendsStepKeepsCleared(hash: seq<byte> -> string, s: S, a: Action)
    requires EndedOk(s) && Enabled(s, a) && SendsStep(s, Next(hash, s, a))
    ensures EndsCleared(Next(hash, s, a)) && Next(hash, s, a).status == Ended
  {
    NextKeepsInv(hash, s, a);
  }

  lemma HandlerSettles(hash: seq<byte> -> string, s: S, priv: nat, now: int, d: Direction)
    requires EndedOk(s) && s.handler.Busy?
    ensures var s' := ResumeHandler(hash, s, priv, now);
            s'.status == Ended && EndsCleared(s') && Settling(s, s', d) && OnlyReports(s.log, s'.log)
  {
    hide ResumeHandler;
    EndedHandlerStep(hash, s, priv, now);
    HandlerReportSettles(s, ResumeHandler(hash, s, priv, now), d);
  }

  lemma HandlerReportSettles(s: S, s': S, d: Direction)
    requires s'.x == s.x && !Receiving(s'.handler)
    requires if ReceiveUnsettled(s.handler)
             then |s'.log| == |s.log| + 1 && s.log <= s'.log && IsReport(s'.log[|s.log|], Incoming)
             else s'.log == s.log
    ensures Settling(s, s', d) && OnlyReports(s.log, s'.log)
  {
  }

  // ---- over every run ----

  lemma {:induction false} EndedRun(hash: seq<byte> -> string, s: S, actions: seq<Action>, d: Direction)
    requires EndedOk(s) && IsRun(hash, s, actions)
    ensures var t := Run(hash, s, actions);
            && OnlyReports(s.log, t.log) && AtMostOneReport(s.log, t.log, d)
            && (!Unsettled(s, d) ==> !ReportsSince(s.log, t.log, d))
    decreases |actions|
  {
    if actions != [] {
      var s1, t := Next(hash, s, actions[0]), Run(hash, s, actions);
      EndedStep(hash, s, actions[0], d);
      EndedRun(hash, s1, actions[1..], d);
      LogsCompose(s, s1, t, d);
    }
  }

  lemma LogsCompose(s: S, s1: S, t: S, d: Direction)
    requires Settling(s, s1, d) && OnlyReports(s.log, s1.log)
    requires OnlyReports(s1.log, t.log) && AtMostOneReport(s1.log, t.log, d)
    requires !Unsettled(s1, d) ==> !ReportsSince(s1.log, t.log, d)
    ensures OnlyReports(s.log, t.log) && AtMostOneReport(s.log, t.log, d)
    ensures !Unsettled(s, d) ==> !ReportsSince(s.log, t.log, d)
  {
    assert forall i :: 0 <= i < |s1.log| ==> t.log[i] == s1.log[i];
  }

  ghost predicate CanReport(hash: seq<byte> -> string, s: S, d: Direction) {
    exists t :: Reaches(hash, s, t) && ReportsSince(s.log, t.log, d)
  }

  /** What an ended session reports over every run: at most one failed send, at most
      one report on a receive, and nothing else. */
  lemma EndedSaysNothingElse(hash: seq<byte> -> string, s: S, t: S)
    requires EndedOk(s) && Reaches(hash, s, t)
    ensures OnlyReports(s.log, t.log)
    ensures AtMostOneReport(s.log, t.log, Outgoing) && AtMostOneReport(s.log, t.log, Incoming)
  {
    var actions :| IsRun(hash, s, actions) && Run(hash, s, actions) == t;
    EndedRun(hash, s, actions, Outgoing);
    EndedRun(hash, s, actions, Incoming);
  }

  lemma SettledReportsNothing(hash: seq<byte> -> string, s: S, d: Direction)
    requires EndedOk(s) && !Unsettled(s, d)
    ensures !CanReport(hash, s, d)
  {
    forall t | Reaches(hash, s, t) ensures !ReportsSince(s.log, t.log, d) {
      var actions :| IsRun(hash, s, actions) && Run(hash, s, actions) == t;
      EndedRun(hash, s, actions, d);
    }
  }

  /** An ended session reports on a receive, in some run, if and only if its handler
      is at the verdict on a file, or on a chunk that is taken or fails the receive. */
  lemma EndedReportsReceiveIff(hash: seq<byte> -> string, s: S)
    requires EndedOk(s)
    ensures CanReport(hash, s, Incoming) <==> ReceiveUnsettled(s.handler)
  {
    if ReceiveUnsettled(s.handler) {
      var t := Next(hash, s, HandlerRuns(0, 0));
      EndedHandlerStep(hash, s, 0, 0);
      LeadsBy(hash, Anything(), s, HandlerRuns(0, 0));
      LeadsReaches(hash, Anything(), s, t);
      assert ReportsSince(s.log, t.log, Incoming);
    } else {
      SettledReportsNothing(hash, s, Incoming);
    }
  }

  /** It reports on a send, in some run, if and only if its drain loop has one in its
      hands or one awaits its ack. */
  lemma EndedReportsSendIff(hash: seq<byte> -> string, s: S)
    requires EndedOk(s)
    ensures CanReport(hash, s, Outgoing) <==> SendUnsettled(s.x)
  {
    if s.x.pendingAck.Some? {
      AckCanFail(hash, s);
    } else if HasLive(s.x) {
      var id :| id in s.x.loops && !s.x.loops[id].Exiting?;
      LiveReports(hash, s, id);
    } else {
      SettledReportsNothing(hash, s, Outgoing);
    }
  }

  /** The awaited ack is given up. */
  lemma AckCanFail(hash: seq<byte> -> string, s: S)
    requires EndedOk(s) && s.x.pendingAck.Some?
    ensures CanReport(hash, s, Outgoing)
  {
    var id := s.x.pendingAck.value;
    var t := CancelFile(s, id);
    LeadsBy(hash, Anything(), s, FileCancelled(id));
    LeadsReaches(hash, Anything(), s, t);
    assert ActiveId(s.x).None?;
    assert t == CancelPendingAck(s, id, Cancelled);
    assert IsReport(t.log[|s.log|], Outgoing);
  }

  /** From any later state of the same log it does. */
  lemma ReportsOn(hash: seq<byte> -> string, s: S, t: S, d: Direction)
    requires Leads(hash, Anything(), s, t) && SaysNothing(s.log, t.log) && CanReport(hash, t, d)
    ensures CanReport(hash, s, d)
  {
    var u :| Reaches(hash, t, u) && ReportsSince(t.log, u.log, d);
    ReachesOn(hash, s, t, u);
  }

  lemma ReachesOn(hash: seq<byte> -> string, s: S, t: S, u: S)
    requires Leads(hash, Anything(), s, t) && Reaches(hash, t, u)
    ensures Reaches(hash, s, u)
  {
    var a :| IsRun(hash, s, a) && Permitted(Anything(), a) && Run(hash, s, a) == t;
    var b :| IsRun(hash, t, b) && Run(hash, t, b) == u;
    RunAppend(hash, s, a, b);
    assert IsRun(hash, s, a + b);
  }

  lemma LiveReports(hash: seq<byte> -> string, s: S, id: nat)
    requires EndedOk(s) && id in s.x.loops && !s.x.loops[id].Exiting?
    ensures CanReport(hash, s, Outgoing)
  {
    if s.x.loops[id].Reading? {
      UnreadReports(hash, s, id);
    } else if !Suspended(s.x.loops[id].job) {
      OverReports(hash, s, id);
    } else {
      var l := s.x.loops[id];
      CalmCanRun(s, id);
      var t := JobRunsOn(s, id, 0);
      EndedJobRuns(s, id, 0);
      JobIsOver(s, id);
      EndedStep(hash, s, LoopRunsOn(id, true, 0), Outgoing);
      LeadsBy(hash, Anything(), s, LoopRunsOn(id, true, 0));
      OverReports(hash, t, id);
      ReportsOn(hash, s, t, Outgoing);
    }
  }

  lemma UnreadReports(hash: seq<byte> -> string, s: S, id: nat)
    requires EndedOk(s) && id in s.x.loops && s.x.loops[id].Reading?
    ensures CanReport(hash, s, Outgoing)
  {
    var l := s.x.loops[id];
    var b := Block(l.src, l.ticket, []);
    var t := Dropped(s, id, b, Some(Failed));
    DroppedAtTop(s, id, b, Some(Failed));
    LeadsBy(hash, Anything(), s, LoopRunsOn(id, false, 0));
    LeadsReaches(hash, Anything(), s, t);
    assert IsReport(t.log[|s.log|], Outgoing);
  }

  /** A job of an ended session was stopped or has not sent anything: it can run on,
      and then it is over. */
  lemma CalmCanRun(s: S, id: nat)
    requires EndedOk(s) && id in s.x.loops && s.x.loops[id].Running? && Suspended(s.x.loops[id].job)
    ensures JobCanRun(s.x.loops[id]) && CalmLoop(s.x.loops[id])
  {
    RunningIsCurrent(s.x, id);
    CalmPerLoop(s.x);
    assert CalmLoops()(s.x.loops[id]);
  }

  lemma JobIsOver(s: S, id: nat)
    requires !CanSend(s) && id in s.x.loops && JobCanRun(s.x.loops[id]) && CalmLoop(s.x.loops[id])
    ensures var t := JobRunsOn(s, id, 0);
            && id in t.x.loops && t.x.loops[id].Running? && !Suspended(t.x.loops[id].job)
            && SaysNothing(s.log, t.log)
  {
    CalmJobSaysNothing(s, s.x.loops[id], 0);
  }

  lemma OverReports(hash: seq<byte> -> string, s: S, id: nat)
    requires EndedOk(s) && id in s.x.loops && s.x.loops[id].Running? && !Suspended(s.x.loops[id].job)
    ensures CanReport(hash, s, Outgoing)
  {
    if s.x.loops[id].job.at == Returned(true) {
      SentReports(hash, s, id);
    } else {
      UnsentReports(hash, s, id);
    }
  }

  /** It was all sent: it awaits its ack, which can be given up. */
  lemma SentReports(hash: seq<byte> -> string, s: S, id: nat)
    requires EndedOk(s) && id in s.x.loops && s.x.loops[id].Running? && s.x.loops[id].job.at == Returned(true)
    ensures CanReport(hash, s, Outgoing)
  {
    hide Sound;
    var a := LoopRunsOn(id, true, 0);
    EndedStep(hash, s, a, Outgoing);
    LeadsBy(hash, Anything(), s, a);
    AwaitsAck(s, id);
    AckCanFail(hash, JobEnded(s, id));
    ReportsOn(hash, s, JobEnded(s, id), Outgoing);
  }

  lemma AwaitsAck(s: S, id: nat)
    requires s.x.queue == [] && id in s.x.loops && s.x.loops[id].Running? && s.x.loops[id].job.at == Returned(true)
    ensures JobEnded(s, id).x.pendingAck.Some? && JobEnded(s, id).log == s.log
  {
  }

  lemma UnsentReports(hash: seq<byte> -> string, s: S, id: nat)
    requires EndedOk(s) && id in s.x.loops && s.x.loops[id].Running?
    requires !Suspended(s.x.loops[id].job) && s.x.loops[id].job.at != Returned(true)
    ensures CanReport(hash, s, Outgoing)
  {
    hide Sound;
    LeadsBy(hash, Anything(), s, LoopRunsOn(id, true, 0));
    LeadsReaches(hash, Anything(), s, JobEnded(s, id));
    FailureIsReported(s, id);
    assert IsReport(JobEnded(s, id).log[|s.log|], Outgoing);
  }

  lemma FailureIsReported(s: S, id: nat)
    requires s.x.queue == [] && id in s.x.loops && s.x.loops[id].Running?
    requires !Suspended(s.x.loops[id].job) && s.x.loops[id].job.at != Returned(true)
    ensures JobEnded(s, id).log == s.log + [Emit(FileFailed(s.x.loops[id].src.id, Outgoing, WhyFailed(s, s.x.loops[id].job)))]
  {
  }

  /** Every run that ends a session leads to one of these. */
  lemma {:induction false} EndedRunsAreOk(hash: seq<byte> -> string, s: S, actions: seq<Action>)
    requires Sound(s) && EndsCleared(s) && IsRun(hash, s, actions)
    ensures var t := Run(hash, s, actions); Sound(t) && EndsCleared(t) && (t.status == Ended ==> EndedOk(t))
    decreases |actions|
  {
    if actions != [] {
      NextKeepsSound(hash, s, actions[0]);
      if s.status == Ended {
        EndedStep(hash, s, actions[0], Outgoing);
      } else {
        EndingClears(hash, s, actions[0]);
      }
      EndedRunsAreOk(hash, Next(hash, s, actions[0]), actions[1..]);
    }
  }

  lemma ReachableEndedIsOk(hash: seq<byte> -> string, secret: nat, inviteWindowMs: int, graceDurationMs: int,
                           token: Option<Token>, t: S)
    requires Reaches(hash, Fresh(secret, inviteWindowMs, graceDurationMs, token), t) && t.status == Ended
    ensures EndedOk(t)
  {
    var s := Fresh(secret, inviteWindowMs, graceDurationMs, token);
    var actions :| IsRun(hash, s, actions) && Run(hash, s, actions) == t;
    FreshSound(secret, inviteWindowMs, graceDurationMs, token);
    EndedRunsAreOk(hash, s, actions);
  }
}
