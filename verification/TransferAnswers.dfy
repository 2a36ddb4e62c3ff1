/** What becomes of transfers, to the letter: how the drain loop takes up the next one
    and puts one behind it, what stops a transfer and why it is reported failed, and
    what every way out of a secure session does to all of them at once. */
module TransferAnswers {
  import opened Wrappers
  import opened Protocol
  import opened Base64url
  import opened Wire
  import opened FileTransfer
  import opened TransferTheorems
  import opened Session
  import opened SessionSteps
  import opened HandlerSteps
  import opened LoopSteps
  import opened SessionInvariants
  import opened SendDiscipline
  import opened SessionReceives
  import opened FilesReceived
  import opened Conversation
  import KeyChange
  import SendTheorems

  // ---- the drain loop ----

  /** Each of the queue reported failed, in order. */
  function Failures(queue: seq<Queued>): Log {
    seq(|queue|, i requires 0 <= i < |queue| => Emit(FileFailed(queue[i].src.id, Outgoing, Disconnected)))
  }

  /** Each of the queue put behind, nothing of it sent. */
  function Unsent(queue: seq<Queued>): seq<Block> {
    seq(|queue|, i requires 0 <= i < |queue| => Block(queue[i].src, queue[i].ticket, []))
  }

  lemma {:induction false} FailQueuedInOrder(queue: seq<Queued>)
    ensures FailQueued(queue) == Failures(queue)
  {
    if queue != [] {
      FailQueuedInOrder(queue[..|queue| - 1]);
    }
  }

  /** The loop `id` takes up the next transfer: it waits to be over if there is none, reads
      the first if it can be sent, and otherwise gives up all of them. */
  function TakesUp(s: S, id: nat): S {
    if s.x.queue == [] then s.(x := s.x.(loops := s.x.loops[id := Exiting]))
    else if s.status == Secure && s.hs.key.Some? && s.dataOpen then
      s.(x := s.x.(queue := s.x.queue[1..],
                   loops := s.x.loops[id := Reading(s.x.queue[0].src, s.hs.key.value, s.x.queue[0].ticket)]))
    else
      s.(x := s.x.(queue := [], history := s.x.history + Unsent(s.x.queue), loops := s.x.loops[id := Exiting]),
         log := s.log + Failures(s.x.queue))
  }

  lemma GivingUpGoesOn(s: S, id: nat)
    requires s.x.queue != [] && !CanSend(s)
    ensures var q := s.x.queue[0];
            TakesUp(Settled(s.(x := s.x.(queue := s.x.queue[1..])), Block(q.src, q.ticket, []), Some(Disconnected)), id) == TakesUp(s, id)
  {
    hide Unsent, Failures;
    HeadGivenUp(s.x.queue);
    var q, rest := s.x.queue[0], s.x.queue[1..];
    assert s.x.history + [Block(q.src, q.ticket, [])] + Unsent(rest) == s.x.history + Unsent(s.x.queue);
    assert s.log + [Emit(FileFailed(q.src.id, Outgoing, Disconnected))] + Failures(rest) == s.log + Failures(s.x.queue);
  }

  lemma HeadGivenUp(queue: seq<Queued>)
    requires queue != []
    ensures Unsent(queue) == [Block(queue[0].src, queue[0].ticket, [])] + Unsent(queue[1..])
    ensures Failures(queue) == [Emit(FileFailed(queue[0].src.id, Outgoing, Disconnected))] + Failures(queue[1..])
    ensures queue[1..] == [] ==> Unsent(queue[1..]) == [] && Failures(queue[1..]) == []
  {
  }

  lemma {:induction false} LoopTakesUp(s: S, id: nat)
    ensures LoopTop(s, id) == TakesUp(s, id)
    decreases |s.x.queue|
  {
    if s.x.queue != [] && !CanSend(s) {
      hide TakesUp;
      var q := s.x.queue[0];
      LoopTakesUp(Settled(s.(x := s.x.(queue := s.x.queue[1..])), Block(q.src, q.ticket, []), Some(Disconnected)), id);
      GivingUpGoesOn(s, id);
    }
  }

  /** Why a transfer whose job is over failed, if it did: not at all if everything went out;
      for the reason it was stopped; and otherwise for whether the session is still secure. */
  function Verdict(s: S, l: Loop): Option<FailReason>
    requires l.Running?
  {
    match l.job.at
    case Returned(true) => None
    case Returned(false) => l.job.stopped
    case _ => Some(if s.status == Secure then Failed else Disconnected)
  }

  /** The transfer is put behind, reported failed if it did; one that went out whole is
      awaited. */
  function Past(s: S, src: Source, ticket: nat, sent: seq<FileFrame>, failed: Option<FailReason>): S {
    s.(x := s.x.(history := s.x.history + [Block(src, ticket, sent)]),
       log := s.log + if failed.Some? then [Emit(FileFailed(src.id, Outgoing, failed.value))] else [])
  }

  /** A job that is over is reported by its verdict, and the next transfer is taken up. */
  lemma JobEndAnswers(s: S, id: nat)
    requires LoopsOk(s.x) && id in s.x.loops && s.x.loops[id].Running? && !Suspended(s.x.loops[id].job)
    ensures var l := s.x.loops[id];
            var s1 := s.(x := s.x.(activeSend := None, pendingAck := if Verdict(s, l).None? then Some(l.src.id) else s.x.pendingAck));
            && (l.job.at == Returned(false) ==> l.job.stopped.Some?)
            && (Verdict(s, l).None? <==> l.sent == Script(l.src))
            && JobEnded(s, id) == TakesUp(Past(s1, l.src, l.ticket, l.sent, Verdict(s, l)), id)
  {
    hide LoopTop, TakesUp, Script;
    var l := s.x.loops[id];
    SendTheorems.RunningIsCurrent(s.x, id);
    OkIsPrefix(l.src, Sending(l.job, l.sent));
    var s1 := s.(x := s.x.(activeSend := None, pendingAck := if Verdict(s, l).None? then Some(l.src.id) else s.x.pendingAck));
    LoopTakesUp(Past(s1, l.src, l.ticket, l.sent, Verdict(s, l)), id);
    assert s.log + [] == s.log;
  }

  /** A file that cannot be read fails by itself; one that can is the active transfer. */
  lemma ReadAnswers(s: S, id: nat, ok: bool)
    requires id in s.x.loops && s.x.loops[id].Reading?
    ensures var l := s.x.loops[id];
            AfterRead(s, id, ok) ==
              if ok then
                s.(x := s.x.(loops := s.x.loops[id := Running(l.src, l.key, l.ticket, STARTED, None, [])], activeSend := Some(id)))
              else TakesUp(Past(s, l.src, l.ticket, [], Some(Failed)), id)
  {
    hide LoopTop, TakesUp;
    var l := s.x.loops[id];
    LoopTakesUp(Past(s, l.src, l.ticket, [], Some(Failed)), id);
  }

  // ---- stopping ----

  /** The transfers `x'` are `x` with the active one told to stop, unless it was before. */
  predicate TellsToStop(x: Transfers, x': Transfers, why: FailReason) {
    if ActiveId(x).None? then x' == x
    else
      var n := x.activeSend.value;
      && n in x'.loops && x'.loops[n].Running? && x' == x.(loops := x.loops[n := x'.loops[n]])
      && var l, l' := x.loops[n], x'.loops[n];
         && l' == l.(job := l'.job) && l'.job.at == l.job.at
         && (if l.job.stopped.Some? then l'.job == l.job else l'.job.stopped == Some(why) && !l'.job.parked)
  }

  /** The queue without the first transfer of that id. */
  predicate WithoutFirst(queue: seq<Queued>, queue': seq<Queued>, id: string) {
    if !IsQueued(queue, id) then queue' == queue
    else exists i :: 0 <= i < |queue| && queue[i].src.id == id && !IsQueued(queue[..i], id) && queue' == queue[..i] + queue[i + 1..]
  }

  lemma {:induction false} FirstQueued(queue: seq<Queued>, id: string, i: nat)
    requires i < |queue| && queue[i].src.id == id && forall j :: 0 <= j < i ==> queue[j].src.id != id
    ensures IsQueued(queue, id) && CancelQueued(queue, id) == queue[..i] + queue[i + 1..]
  {
    if i > 0 {
      assert queue[1..][i - 1] == queue[i];
      assert forall j :: 0 <= j < i - 1 ==> queue[1..][j] == queue[j + 1];
      FirstQueued(queue[1..], id, i - 1);
      assert [queue[0]] + (queue[1..][..i - 1] + queue[1..][i..]) == queue[..i] + queue[i + 1..];
    }
  }

  lemma {:induction false} NotQueued(queue: seq<Queued>, id: string)
    requires !IsQueued(queue, id)
    ensures CancelQueued(queue, id) == queue
  {
    if queue != [] {
      assert forall i :: 0 <= i < |queue[1..]| ==> queue[1..][i] == queue[i + 1];
      NotQueued(queue[1..], id);
      assert [queue[0]] + queue[1..] == queue;
    }
  }

  lemma FirstOf(queue: seq<Queued>, id: string, k: nat) returns (i: nat)
    requires k < |queue| && queue[k].src.id == id
    ensures i < |queue| && queue[i].src.id == id && forall j :: 0 <= j < i ==> queue[j].src.id != id
  {
    i := 0;
    while queue[i].src.id != id
      invariant i <= k && forall j :: 0 <= j < i ==> queue[j].src.id != id
      decreases k - i
    {
      i := i + 1;
    }
  }

  lemma CancelTakesFirst(queue: seq<Queued>, id: string)
    ensures WithoutFirst(queue, CancelQueued(queue, id), id)
  {
    hide CancelQueued;
    if IsQueued(queue, id) {
      var k :| 0 <= k < |queue| && queue[k].src.id == id;
      var i := FirstOf(queue, id, k);
      FirstQueued(queue, id, i);
    } else {
      NotQueued(queue, id);
    }
  }

  lemma StoppingTells(x: Transfers, why: FailReason)
    ensures TellsToStop(x, StopActive(x, why), why)
  {
  }

  /** What taking the id out of the queue, the receive and the wait for its arrival says. */
  function CancelLog(x: Transfers, id: string): Log {
    (if IsQueued(x.queue, id) then [Emit(FileFailed(id, Outgoing, Cancelled))] else [])
    + (if x.receive.Some? && x.receive.value.r.id == id then [Emit(FileFailed(id, Incoming, Cancelled))] else [])
    + (if x.pendingAck == Some(id) then [Emit(FileFailed(id, Outgoing, Cancelled))] else [])
  }

  /** The transfers without the id, the active one left alone. */
  predicate TakenOut(x: Transfers, x': Transfers, id: string) {
    && WithoutFirst(x.queue, x'.queue, id)
    && x' == x.(queue := x'.queue,
                receive := if x.receive.Some? && x.receive.value.r.id == id then None else x.receive,
                pendingAck := if x.pendingAck == Some(id) then None else x.pendingAck)
  }

  lemma CancelQueuedAnswers(s: S, id: string)
    ensures var r := CancelInQueue(s, id);
            && WithoutFirst(s.x.queue, r.x.queue, id) && r.x == s.x.(queue := r.x.queue)
            && r == s.(x := r.x, log := s.log + if IsQueued(s.x.queue, id) then [Emit(FileFailed(id, Outgoing, Cancelled))] else [])
  {
    hide CancelQueued, WithoutFirst, IsQueued;
    CancelTakesFirst(s.x.queue, id);
    if !IsQueued(s.x.queue, id) {
      NotQueued(s.x.queue, id);
    }
    assert s.log + [] == s.log;
  }

  /** cancelFile, to the letter: the active transfer of that id is told to stop as cancelled
      and nothing is said yet; otherwise the id leaves the queue, the receive and the wait
      for its arrival, and each it was in is reported cancelled. */
  lemma CancelAnswers(s: S, id: string)
    ensures var r := CancelFile(s, id);
            if ActiveId(s.x) == Some(id) then r == s.(x := r.x) && TellsToStop(s.x, r.x, Cancelled)
            else r == s.(x := r.x, log := s.log + CancelLog(s.x, id)) && TakenOut(s.x, r.x, id)
  {
    hide TellsToStop, StopActive, ActiveId, CancelInQueue, CancelReceive, CancelPendingAck, CancelLog, TakenOut;
    if ActiveId(s.x) == Some(id) {
      StoppingTells(s.x, Cancelled);
    } else {
      CancelElsewhere(s, id);
    }
  }

  lemma CancelElsewhere(s: S, id: string)
    ensures var r := CancelPendingAck(CancelReceive(CancelInQueue(s, id), id), id, Cancelled);
            r == s.(x := r.x, log := s.log + CancelLog(s.x, id)) && TakenOut(s.x, r.x, id)
  {
    hide WithoutFirst, IsQueued, CancelInQueue;
    CancelQueuedAnswers(s, id);
    var s1 := CancelInQueue(s, id);
    LaterCancelAnswers(s1, id);
    assert forall a: Log, b: Log, c: Log :: s.log + (a + b + c) == (s.log + a) + (b + c);
  }

  lemma LaterCancelAnswers(s: S, id: string)
    ensures var r := CancelPendingAck(CancelReceive(s, id), id, Cancelled);
            var received := s.x.receive.Some? && s.x.receive.value.r.id == id;
            r == s.(x := s.x.(receive := if received then None else s.x.receive,
                              pendingAck := if s.x.pendingAck == Some(id) then None else s.x.pendingAck),
                    log := s.log + ((if received then [Emit(FileFailed(id, Incoming, Cancelled))] else [])
                                    + if s.x.pendingAck == Some(id) then [Emit(FileFailed(id, Outgoing, Cancelled))] else []))
  {
    assert s.log + [] == s.log;
  }

  /** The reason a cancel of the peer gives. */
  function PeerReason(reason: CancelReason): FailReason {
    match reason
    case ByError => Failed
    case BySender => Cancelled
    case ByReceiver => Cancelled
  }

  /** A file-cancel the peer sends: the active transfer of that id is told to stop, a file
      being received or awaited is reported failed, for the reason given; any other is
      ignored. */
  lemma CancelIsHeard(hash: seq<byte> -> string, s: S, r: S, id: string, reason: CancelReason, now: int)
    requires CanSend(s) && Ready(r, s.hs.key.value)
    ensures var h := Heard(hash, r, Saying(s, FileCancel(id, reason)), now);
            var why := PeerReason(reason);
            if ActiveId(r.x) == Some(id) then h == r.(x := h.x) && TellsToStop(r.x, h.x, why)
            else if r.x.receive.Some? && r.x.receive.value.r.id == id then
              h == r.(x := r.x.(receive := None), log := r.log + [Emit(FileFailed(id, Incoming, why))])
            else if r.x.pendingAck == Some(id) then
              h == r.(x := r.x.(pendingAck := None), log := r.log + [Emit(FileFailed(id, Outgoing, why))])
            else h == r
  {
    hide HandleFileCancel, TellsToStop, ActiveId;
    PeerCancelAnswers(r, id, reason);
    OpenedOnce(hash, r, s.hs.key.value, FileCancel(id, reason), now);
  }

  lemma PeerCancelAnswers(r: S, id: string, reason: CancelReason)
    requires r.hs.verified
    ensures var h, why := HandleFileCancel(r, id, reason), PeerReason(reason);
            if ActiveId(r.x) == Some(id) then h == r.(x := h.x) && TellsToStop(r.x, h.x, why)
            else if r.x.receive.Some? && r.x.receive.value.r.id == id then
              h == r.(x := r.x.(receive := None), log := r.log + [Emit(FileFailed(id, Incoming, why))])
            else if r.x.pendingAck == Some(id) then
              h == r.(x := r.x.(pendingAck := None), log := r.log + [Emit(FileFailed(id, Outgoing, why))])
            else h == r
  {
    hide TellsToStop, StopActive;
    StoppingTells(r.x, PeerReason(reason));
  }

  /** An offer: taken up exactly if nothing is being received and its size, name and chunking
      are what sendFile would have given them. */
  lemma OfferIsHeard(hash: seq<byte> -> string, s: S, r: S, o: FileOffer, now: int)
    requires CanSend(s) && Ready(r, s.hs.key.value)
    ensures var good := && 0 < o.size <= 52_428_800 && 0 < |o.name| <= 255
                        && o.chunkSize == 16_384 && (o.chunkCount - 1) * 16_384 < o.size <= o.chunkCount * 16_384;
            Heard(hash, r, Saying(s, Offer(o)), now) ==
              if r.x.receive.None? && good then
                r.(x := r.x.(receive := Some(ReceiveJob(Receiver(o.id, o.size, [], 0, 0), s.hs.key.value))),
                   log := r.log + [Emit(FileIncoming(o.id, o.name, o.mime, o.size))])
              else r
  {
    OpenedOnce(hash, r, s.hs.key.value, Offer(o), now);
  }

  /** A chunk of the file being received: kept, and counted, if it opens, is of this file,
      the next in order and still fits; dropped if it is of another; and else the end
      of the transfer, reported failed. */
  lemma ChunkAnswers(hash: seq<byte> -> string, s: S, priv: nat, now: int)
    requires s.handler.Busy? && s.handler.aw.AcceptingChunk? && s.x.receive == Some(s.handler.aw.job)
    requires !s.handler.aw.frame.OtherBinaryVersion?
    ensures var job, f := s.handler.aw.job, s.handler.aw.frame;
            ResumeHandler(hash, s, priv, now) ==
              if IsAccepted(job, f) then
                s.(handler := Idle,
                   x := s.x.(receive := Some(job.(r := Receiver(job.r.id, job.r.size, job.r.chunks + [f.bytes],
                                                                job.r.bytesReceived + |f.bytes|, job.r.nextSeq + 1)))),
                   log := s.log + [Emit(FileProgress(job.r.id, Incoming, job.r.bytesReceived + |f.bytes|, job.r.size))])
              else if f.SealedChunk? && f.key == job.key && f.id != job.r.id then s.(handler := Idle)
              else s.(handler := Idle, x := s.x.(receive := None), log := s.log + [Emit(FileFailed(job.r.id, Incoming, Failed))])
  {
  }

  // ---- leaving a secure session ----

  /** Everything under way is reported failed: what is awaited, what is queued, what is received. */
  function AllFailed(x: Transfers): Log {
    (if x.pendingAck.Some? then [Emit(FileFailed(x.pendingAck.value, Outgoing, Disconnected))] else [])
    + Failures(x.queue)
    + (if x.receive.Some? then [Emit(FileFailed(x.receive.value.r.id, Incoming, Disconnected))] else [])
  }

  function Emptied(x: Transfers): Transfers {
    x.(pendingAck := None, queue := [], receive := None)
  }

  /** Between `s` and `r` everything under way was failed at once, and no other transfer touched. */
  ghost predicate FailedAll(s: S, r: S) {
    && TellsToStop(Emptied(s.x), r.x, Disconnected)
    && exists before: Log, after: Log :: Spans(s.log, before, AllFailed(s.x), after, r.log)
  }

  predicate Spans(log: Log, before: Log, failed: Log, after: Log, log': Log) {
    log' == log + before + failed + after
  }

  lemma FailAllAnswers(s: S)
    ensures var r := FailAllTransfers(s);
            && TellsToStop(Emptied(s.x), r.x, Disconnected)
            && r == s.(x := r.x, log := s.log + AllFailed(s.x))
  {
    FailQueuedInOrder(s.x.queue);
    StopActiveKeepsRest(s.x);
    assert forall e: Log :: s.log + (e + Failures(s.x.queue)) == s.log + e + Failures(s.x.queue);
  }

  lemma StopActiveKeepsRest(x: Transfers)
    ensures var x' := StopActive(x, Disconnected);
            x'.pendingAck == x.pendingAck && x'.queue == x.queue && x'.receive == x.receive
            && TellsToStop(Emptied(x), Emptied(x'), Disconnected)
  {
  }

  lemma ResetFailsAll(s: S, t: S, r: S, before: Log, after: Log)
    requires t.x == s.x && t.log == s.log + before
    requires r.x == FailAllTransfers(t).x && r.log == FailAllTransfers(t).log + after
    ensures FailedAll(s, r)
  {
    hide FailAllTransfers, TellsToStop, AllFailed;
    FailAllAnswers(t);
    assert Spans(s.log, before, AllFailed(s.x), after, r.log);
  }

  lemma FinishFailsAll(s: S, t: S, before: Log, reason: EndReason, close: bool)
    requires t.x == s.x && t.log == s.log + before && t.status != Ended
    ensures FailedAll(s, FinishSession(t, reason, close))
  {
    hide FailAllTransfers, FailedAll, AllFailed, TellsToStop;
    var t1 := t.(timers := ClearGrace(t.timers));
    FailAllAnswers(t1);
    assert FinishSession(t, reason, close).log == FailAllTransfers(t1).log + [Emit(StatusIs(Ended)), Emit(HasEnded(reason))];
    ResetFailsAll(s, t1, FinishSession(t, reason, close), before, [Emit(StatusIs(Ended)), Emit(HasEnded(reason))]);
  }

  lemma FailHandshakeFailsAll(s: S, t: S, reason: EndReason)
    requires t.x == s.x && t.log == s.log && t.status != Ended
    ensures FailedAll(s, FailHandshake(t, reason))
  {
    hide FailAllTransfers, FailedAll, FinishSession;
    FinishFailsAll(s, t.(log := t.log + [LeaveRoom]), [LeaveRoom], reason, true);
  }

  lemma GraceFailsAll(s: S, needsRejoin: bool, now: int)
    requires s.status == Secure
    ensures FailedAll(s, EnterGrace(s, needsRejoin, now))
  {
    hide FailAllTransfers, FailedAll, AllFailed, TellsToStop;
    assert s.log == s.log + [];
    FailAllAnswers(s);
    assert EnterGrace(s, needsRejoin, now).log ==
           FailAllTransfers(s).log + [Emit(StatusIs(Reconnecting)), Emit(GraceCountdown(s.graceDurationMs))];
    ResetFailsAll(s, s, EnterGrace(s, needsRejoin, now), [], [Emit(StatusIs(Reconnecting)), Emit(GraceCountdown(s.graceDurationMs))]);
  }

  lemma OpeningFailsAll(s: S, now: int)
    requires s.status == Secure
    ensures FailedAll(s, HandleEvent(s, DataOpened, now))
  {
    hide FailAllTransfers, FailedAll;
    var t := SetStatus(s.(timers := ClearGrace(s.timers)), Securing);
    var r := HandleEvent(s, DataOpened, now);
    assert r.log == FailAllTransfers(t).log + [];
    ResetFailsAll(s, t, r, [Emit(StatusIs(Securing))], []);
  }

  lemma EventFailsAll(s: S, e: TransportEvent, now: int)
    requires s.status == Secure && HandleEvent(s, e, now).status != Secure && !e.RoomCreated?
    ensures FailedAll(s, HandleEvent(s, e, now))
  {
    hide FailedAll, FinishSession, FailHandshake, EnterGrace;
    assert s.log + [] == s.log;
    match e {
      case PeerWent => GraceFailsAll(s, false, now);
      case DataLost => GraceFailsAll(s, false, now);
      case SignalingDown => GraceFailsAll(s, true, now);
      case DataOpened => OpeningFailsAll(s, now);
      case RoomGone(reason) => FinishFailsAll(s, s, [], ReasonFor(reason), true);
      case ServerSays(code) => FinishFailsAll(s, s, [], ServerErrorReason(s, code), true);
      case DataText(frame) =>
        FailHandshakeFailsAll(s, s, VersionMismatch);
        FailHandshakeFailsAll(s, s, KeyConfirmFailed);
      case _ => JoiningStaysSecure(s, e, now);
    }
  }

  lemma JoiningStaysSecure(s: S, e: TransportEvent, now: int)
    requires s.status == Secure && (e.RoomJoined? || e.PeerCame? || e.DataBinary?)
    ensures HandleEvent(s, e, now).status == Secure
  {
  }

  lemma PayloadFailsAll(s: S, t: S, p: Message, now: int)
    requires !p.FileDone? && s.status == Secure && t == s.(handler := Idle) && HandlePayload(t, p, now).status != Secure
    ensures FailedAll(s, HandlePayload(t, p, now))
  {
    hide FailedAll, FinishSession, FailHandshake, HandleFileCancel, HandleOffer;
    assert s.log + [] == s.log;
    match p {
      case End => FinishFailsAll(s, t, [], ByPeer, true);
      case KeyConfirm(_) => FailHandshakeFailsAll(s, t, KeyConfirmFailed);
      case Offer(o) => KeyChange.PayloadSecureOrEnds(t, p, now); TransfersStaySecure(t, p, now);
      case FileCancel(id, reason) => TransfersStaySecure(t, p, now);
      case _ =>
    }
  }

  lemma TransfersStaySecure(t: S, p: Message, now: int)
    requires p.Offer? || p.FileCancel?
    ensures HandlePayload(t, p, now).status == t.status
  {
  }

  lemma NextBufferedFailsAll(s: S, t: S, rest: seq<Cipher>)
    requires FailedAll(s, t)
    ensures FailedAll(s, NextBuffered(t, rest))
  {
  }

  lemma HandlerFailsAll(hash: seq<byte> -> string, s: S, priv: nat, now: int)
    requires Inv(s) && s.status == Secure && s.handler.Busy? && ResumeHandler(hash, s, priv, now).status != Secure
    ensures FailedAll(s, ResumeHandler(hash, s, priv, now))
  {
    hide FailedAll, HandlePayload, FailHandshake, FinishSession;
    match s.handler.aw {
      case Decrypting(key, cipher, rest) =>
        var p := Decrypt(key, cipher);
        if p.None? {
          FailHandshakeFailsAll(s, s.(handler := Idle), KeyConfirmFailed);
          NextBufferedFailsAll(s, FailHandshake(s.(handler := Idle), KeyConfirmFailed), rest);
        } else if !p.value.FileDone? {
          PayloadFailsAll(s, s.(handler := Idle), p.value, now);
          NextBufferedFailsAll(s, HandlePayload(s.(handler := Idle), p.value, now), rest);
        }
      case FinishingFile(_, _, _) =>
      case AcceptingChunk(job, frame) =>
        if frame.OtherBinaryVersion? {
          FailHandshakeFailsAll(s, s.(handler := Idle), VersionMismatch);
        } else {
          ChunkStaysSecure(s.(handler := Idle), job, frame);
        }
      case _ => assert false;
    }
  }

  lemma ChunkStaysSecure(s: S, job: ReceiveJob, frame: Binary)
    requires !frame.OtherBinaryVersion?
    ensures TakeChunk(s, job, frame).status == s.status
  {
  }

  lemma EndFailsAll(s: S)
    requires s.status == Secure
    ensures FailedAll(s, EndSession(s))
  {
    hide FailedAll, FinishSession;
    assert s.log + [] == s.log;
    FinishFailsAll(s, s.(tail := s.hs.key), [], YouEnded, false);
    FinishFailsAll(s, CloseTransport(s.(log := s.log + [LeaveRoom])), [LeaveRoom], YouEnded, false);
  }

  /** Every way out of a secure session, whatever step takes it, fails everything under way
      at once and in order: the file whose arrival is awaited, every queued one, the one
      being received; and the active one is told to stop for it, unless it was told before. */
  lemma LeavingSecureFailsAll(hash: seq<byte> -> string, s: S, a: Action)
    requires Inv(s) && Enabled(s, a) && s.status == Secure && Next(hash, s, a).status != Secure
    ensures FailedAll(s, Next(hash, s, a))
  {
    hide FailedAll, HandleEvent, ResumeHandler, EndSession;
    KeyChange.NothingPendingWhileSecure(s);
    if a.Deliver? {
      EventFailsAll(s, a.event, a.now);
    } else if a.HandlerRuns? {
      HandlerFailsAll(hash, s, a.priv, a.now);
    } else if a.EndCalled? {
      EndFailsAll(s);
    } else if IsQueueStep(a) {
      QueueStepIsTransfers(hash, s, a);
    } else {
      RestStaysSecure(hash, s, a);
    }
  }

  lemma RestStaysSecure(hash: seq<byte> -> string, s: S, a: Action)
    requires Inv(s) && Enabled(s, a) && s.status == Secure && s.timers.pending == map[]
    requires !a.Deliver? && !a.HandlerRuns? && !a.EndCalled? && !IsQueueStep(a)
    ensures Next(hash, s, a).status == Secure
  {
  }

  // ---- the first reason ----

  /** The job of this loop was told to stop, for this reason. */
  predicate StoppedFor(x: Transfers, id: nat, ticket: nat, why: FailReason) {
    id in x.loops && x.loops[id].Running? && x.loops[id].ticket == ticket && x.loops[id].job.stopped == Some(why)
  }

  ghost function StaysStopped(id: nat, ticket: nat, why: FailReason): Property {
    (t: S) => StoppedFor(t.x, id, ticket, why)
  }

  lemma TellingKeepsStopped(x: Transfers, x': Transfers, reason: FailReason, id: nat, ticket: nat, why: FailReason)
    requires TellsToStop(x, x', reason) && StoppedFor(x, id, ticket, why)
    ensures StoppedFor(x', id, ticket, why)
  {
  }

  lemma StoppedIsClosed(id: nat, ticket: nat, why: FailReason)
    ensures var inv := StaysStopped(id, ticket, why);
            ClosedUnderHandler(inv) && ClosedUnderSecuring(inv) && ClosedUnderTokens(inv)
  {
    hide TellsToStop, FailAllTransfers, StopActive;
    forall s: S | StoppedFor(s.x, id, ticket, why) ensures StoppedFor(FailAllTransfers(s).x, id, ticket, why) {
      FailAllAnswers(s);
      TellingKeepsStopped(Emptied(s.x), FailAllTransfers(s).x, Disconnected, id, ticket, why);
    }
    forall s: S, reason | StoppedFor(s.x, id, ticket, why) ensures StoppedFor(Stopped(s, reason).x, id, ticket, why) {
      StoppingTells(s.x, reason);
      TellingKeepsStopped(s.x, Stopped(s, reason).x, reason, id, ticket, why);
    }
    forall s: S | StoppedFor(s.x, id, ticket, why) ensures StoppedFor(BecomeSecure(s).x, id, ticket, why) {
      KeyChange.SecuringKeepsTransfers(s);
    }
  }

  lemma LoopStaysStopped(s: S, id: nat, buffered: int, ticket: nat, why: FailReason)
    requires id in s.x.loops && JobCanRun(s.x.loops[id]) && StoppedFor(s.x, id, ticket, why)
    ensures StoppedFor(JobRunsOn(s, id, buffered).x, id, ticket, why)
  {
  }

  lemma CancelStaysStopped(s: S, cancelled: string, id: nat, ticket: nat, why: FailReason)
    requires StoppedFor(s.x, id, ticket, why)
    ensures StoppedFor(CancelFile(s, cancelled).x, id, ticket, why)
  {
    hide CancelFile, TellsToStop, WithoutFirst, ActiveId;
    CancelAnswers(s, cancelled);
    if ActiveId(s.x) == Some(cancelled) {
      TellingKeepsStopped(s.x, CancelFile(s, cancelled).x, Cancelled, id, ticket, why);
    }
  }

  lemma QueueStepStaysStopped(hash: seq<byte> -> string, s: S, a: Action, id: nat, ticket: nat, why: FailReason)
    requires LoopsOk(s.x) && Enabled(s, a) && StoppedFor(s.x, id, ticket, why)
    requires a.FileOffered? || a.ChannelDrained?
    ensures StoppedFor(Next(hash, s, a).x, id, ticket, why)
  {
    hide LoopTop;
    SendTheorems.RunningIsCurrent(s.x, id);
  }

  /** The first reason to stop a transfer stands, whatever else happens, until its job is
      over; and then, by JobEndAnswers, it is the one reported, unless everything had
      gone out or the job threw. */
  lemma FirstReasonStands(hash: seq<byte> -> string, s: S, a: Action, id: nat, ticket: nat, why: FailReason)
    requires LoopsOk(s.x) && Enabled(s, a) && StoppedFor(s.x, id, ticket, why)
    ensures || StoppedFor(Next(hash, s, a).x, id, ticket, why)
            || (&& a.LoopRunsOn? && a.loop == id && !Suspended(s.x.loops[id].job)
                && (Verdict(s, s.x.loops[id]) in {None, Some(why)} || s.x.loops[id].job.at.Threw?))
  {
    hide TellsToStop, CancelFile, JobRunsOn;
    if a.LoopRunsOn? {
      SendTheorems.RunningIsCurrent(s.x, id);
      SendTheorems.RunningIsCurrent(s.x, a.loop);
      if Suspended(s.x.loops[id].job) {
        LoopStaysStopped(s, id, a.buffered, ticket, why);
      }
    } else if a.FileCancelled? {
      CancelStaysStopped(s, a.id, id, ticket, why);
    } else if IsQueueStep(a) {
      QueueStepStaysStopped(hash, s, a, id, ticket, why);
    } else if !IsSendStep(a) {
      StoppedIsClosed(id, ticket, why);
      StepKeeps(StaysStopped(id, ticket, why), hash, s, a);
    }
  }
}
