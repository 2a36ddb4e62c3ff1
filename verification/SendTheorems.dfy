/** Single sender, order and conservation of outgoing transfers, over every run
    of a session. */
module SendTheorems {
  import opened Wrappers
  import opened Protocol
  import opened Base64url
  import opened Wire
  import opened FileTransfer
  import opened TransferTheorems
  import opened Session
  import opened SessionSteps
  import opened HandlerSteps
  import opened SendDiscipline

  // ---- the drain loop ----

  /** The session with its drain loop between two transfers. */
  function AtTop(s: S, id: nat): S {
    s.(x := PutLoop(s.x, id, Exiting))
  }

  ghost predicate TopOk(s: S, id: nat) {
    s.x.draining && s.x.nextLoop == id + 1 && Ok(AtTop(s, id))
  }

  lemma HeadIsHeld(x: Transfers, x': Transfers, q: Queued)
    requires x.queue != [] && q == x.queue[0] && x'.queue == x.queue[1..] && x'.history == x.history
    requires Held(Current(x)) == [] && Held(Current(x')) == [Ticketed(q.src.id, q.ticket)]
    ensures Line(x') == Line(x)
  {
    assert Waiting(x.queue) == [Ticketed(q.src.id, q.ticket)] + Waiting(x'.queue);
  }

  lemma HeadIsBehind(x: Transfers, x': Transfers, q: Queued)
    requires x.queue != [] && q == x.queue[0] && x'.queue == x.queue[1..]
    requires x'.history == x.history + [Block(q.src, q.ticket, [])]
    requires Held(Current(x)) == [] && Held(Current(x')) == []
    ensures Line(x') == Line(x)
  {
    assert Waiting(x.queue) == [Ticketed(q.src.id, q.ticket)] + Waiting(x'.queue);
    assert Behind(x'.history) == Behind(x.history) + [Ticketed(q.src.id, q.ticket)];
  }

  lemma HeldIsBehind(x: Transfers, x': Transfers, b: Block)
    requires x'.queue == x.queue && x'.history == x.history + [b]
    requires Held(Current(x)) == [Ticketed(b.src.id, b.ticket)] && Held(Current(x')) == []
    ensures Line(x') == Line(x)
  {
    assert Behind(x'.history) == Behind(x.history) + [Ticketed(b.src.id, b.ticket)];
  }

  /** The head of the queue is taken up. */
  lemma TakesUpKeeps(s: S, id: nat, key: Key)
    requires TopOk(s, id) && s.x.queue != []
    ensures var q := s.x.queue[0];
            SendsOk(PutLoop(s.x.(queue := s.x.queue[1..]), id, Reading(q.src, key, q.ticket)), s.log)
  {
    var q := s.x.queue[0];
    var x0 := AtTop(s, id).x;
    var x' := PutLoop(s.x.(queue := s.x.queue[1..]), id, Reading(q.src, key, q.ticket));
    assert x'.loops.Keys == x0.loops.Keys;
    HeadIsHeld(x0, x', q);
    SameLineKeeps(x0, s.log, x');
  }

  /** The head of the queue is refused: the session cannot send. */
  lemma RefusesKeeps(s: S, id: nat)
    requires TopOk(s, id) && s.x.queue != []
    ensures var q := s.x.queue[0];
            TopOk(Settled(s.(x := s.x.(queue := s.x.queue[1..])), Block(q.src, q.ticket, []), Some(Disconnected)), id)
  {
    var q := s.x.queue[0];
    var b := Block(q.src, q.ticket, []);
    var s' := Settled(s.(x := s.x.(queue := s.x.queue[1..])), b, Some(Disconnected));
    var x0, x' := AtTop(s, id).x, AtTop(s', id).x;
    HeadIsBehind(x0, x', q);
    SettleFailedKeeps(x0, s.log, x', b, Disconnected);
  }

  lemma {:induction false} LoopTopKeeps(s: S, id: nat)
    requires TopOk(s, id)
    ensures Ok(LoopTop(s, id))
    decreases |s.x.queue|
  {
    if s.x.queue != [] {
      if CanSend(s) {
        TakesUpKeeps(s, id, s.hs.key.value);
      } else {
        RefusesKeeps(s, id);
        var q := s.x.queue[0];
        LoopTopKeeps(Settled(s.(x := s.x.(queue := s.x.queue[1..])), Block(q.src, q.ticket, []), Some(Disconnected)), id);
      }
    }
  }

  /** The loop that can run is the current one. */
  lemma RunningIsCurrent(x: Transfers, id: nat)
    requires LoopsOk(x) && id in x.loops
    ensures x.draining && x.nextLoop == id + 1 && Current(x) == Some(x.loops[id])
  {
    assert id in x.loops.Keys;
  }

  /** A transfer the loop held is put behind it, reported failed. */
  lemma GivesUpKeeps(s: S, id: nat, x1: Transfers, b: Block, reason: FailReason)
    requires Ok(s) && id in s.x.loops && !s.x.loops[id].Exiting?
    requires var l := s.x.loops[id]; b == Block(l.src, l.ticket, SentOf(Some(l)))
    requires !IsWhole(b) && b.sent <= Script(b.src)
    requires x1 == s.x.(activeSend := None)
    ensures TopOk(Settled(s.(x := x1), b, Some(reason)), id)
  {
    RunningIsCurrent(s.x, id);
    var s' := Settled(s.(x := x1), b, Some(reason));
    var x' := AtTop(s', id).x;
    assert x'.loops.Keys == s.x.loops.Keys;
    HeldIsBehind(s.x, x', b);
    SettleFailedKeeps(s.x, s.log, x', b, reason);
  }

  lemma CompletesKeeps(s: S, id: nat, b: Block)
    requires Ok(s) && id in s.x.loops && s.x.loops[id].Running?
    requires var l := s.x.loops[id]; b == Block(l.src, l.ticket, l.sent) && IsWhole(b)
    ensures TopOk(Settled(s.(x := s.x.(activeSend := None, pendingAck := Some(b.src.id))), b, None), id)
  {
    RunningIsCurrent(s.x, id);
    var x' := AtTop(Settled(s.(x := s.x.(activeSend := None, pendingAck := Some(b.src.id))), b, None), id).x;
    assert x'.loops.Keys == s.x.loops.Keys;
    HeldIsBehind(s.x, x', b);
    SettleSentKeeps(s.x, s.log, x', b);
  }

  lemma JobEndedKeeps(s: S, id: nat)
    requires Ok(s) && id in s.x.loops && s.x.loops[id].Running? && !Suspended(s.x.loops[id].job)
    ensures Ok(JobEnded(s, id))
  {
    RunningIsCurrent(s.x, id);
    var l := s.x.loops[id];
    if l.job.at == Returned(true) {
      JobSentKeeps(s, id);
    } else {
      var reason := WhyFailed(s, l.job);
      JobFailedKeeps(s, id, reason);
    }
  }

  lemma JobSentKeeps(s: S, id: nat)
    requires Ok(s) && id in s.x.loops && s.x.loops[id].Running? && s.x.loops[id].job.at == Returned(true)
    ensures var l := s.x.loops[id];
            Ok(LoopTop(Settled(s.(x := s.x.(activeSend := None, pendingAck := Some(l.src.id))),
                               Block(l.src, l.ticket, l.sent), None), id))
  {
    RunningIsCurrent(s.x, id);
    var l := s.x.loops[id];
    var b := Block(l.src, l.ticket, l.sent);
    CompletesKeeps(s, id, b);
    LoopTopKeeps(Settled(s.(x := s.x.(activeSend := None, pendingAck := Some(b.src.id))), b, None), id);
  }

  lemma JobFailedKeeps(s: S, id: nat, reason: FailReason)
    requires Ok(s) && id in s.x.loops && s.x.loops[id].Running?
    requires !Suspended(s.x.loops[id].job) && s.x.loops[id].job.at != Returned(true)
    ensures var l := s.x.loops[id];
            Ok(LoopTop(Settled(s.(x := s.x.(activeSend := None)), Block(l.src, l.ticket, l.sent), Some(reason)), id))
  {
    RunningIsCurrent(s.x, id);
    var l := s.x.loops[id];
    var s1 := s.(x := s.x.(activeSend := None));
    CutIsPrefix(l.src, l.sent);
    GivesUpKeeps(s, id, s1.x, Block(l.src, l.ticket, l.sent), reason);
    LoopTopKeeps(Settled(s1, Block(l.src, l.ticket, l.sent), Some(reason)), id);
  }

  lemma ReadKeeps(s: S, id: nat, ok: bool)
    requires Ok(s) && id in s.x.loops && s.x.loops[id].Reading?
    ensures Ok(AfterRead(s, id, ok))
  {
    RunningIsCurrent(s.x, id);
    var l := s.x.loops[id];
    if ok {
      BecomesActiveKeeps(s, id);
    } else {
      var b := Block(l.src, l.ticket, []);
      assert s.x.(activeSend := None) == s.x;
      GivesUpKeeps(s, id, s.x, b, Failed);
      LoopTopKeeps(Settled(s, b, Some(Failed)), id);
    }
  }

  lemma BecomesActiveKeeps(s: S, id: nat)
    requires Ok(s) && id in s.x.loops && s.x.loops[id].Reading?
    ensures Ok(AfterRead(s, id, true))
  {
    RunningIsCurrent(s.x, id);
    var x' := AfterRead(s, id, true).x;
    assert x'.loops.Keys == s.x.loops.Keys;
    SameLineKeeps(s.x, s.log, x');
  }

  lemma ExitKeeps(s: S, id: nat)
    requires Ok(s) && id in s.x.loops && s.x.loops[id].Exiting?
    ensures Ok(LoopExits(s, id))
  {
    RunningIsCurrent(s.x, id);
    var x' := LoopExits(s, id).x;
    assert x'.loops.Keys == {};
    SameLineKeeps(s.x, s.log, x');
  }

  /** A frame of the job goes out as one entry that reads back as that frame. */
  lemma WiredIsFrame(l: Loop, f: FileFrame)
    requires l.Running? && (f.ChunkFrame? || l.ctl.Some?)
    ensures |Wired(l, f)| == 1 && SentFrame(Wired(l, f)[0]) == Some(f) && FailId(Wired(l, f)[0]).None?
  {
  }

  lemma JobStepOk(s: S, l: Loop, buffered: int)
    requires LoopOk(l) && JobCanRun(l)
    ensures LoopOk(RanOn(s, l, buffered))
    ensures var sent := Ran(s, l, buffered).sent;
            sent.Some? ==> FrameId(sent.value) == l.src.id && (sent.value.ChunkFrame? || l.ctl.Some?)
  {
    HappensKeepsOk(l.src, Sending(l.job, l.sent), RunOn(Env(CanSend(s), s.dataOpen, buffered, SEND_HIGH_WATER_BYTES)));
  }

  lemma JobRunsOnKeeps(s: S, id: nat, buffered: int)
    requires Ok(s) && id in s.x.loops && JobCanRun(s.x.loops[id])
    ensures Ok(JobRunsOn(s, id, buffered))
  {
    RunningIsCurrent(s.x, id);
    var l := s.x.loops[id];
    JobStepOk(s, l, buffered);
    var r := Ran(s, l, buffered);
    var s' := JobRunsOn(s, id, buffered);
    assert s'.x.loops.Keys == s.x.loops.Keys;
    if r.sent.None? {
      SameLineKeeps(s.x, s.log, s'.x);
      assert s'.log == s.log;
    } else {
      FrameGoesOut(s.x, s.log, s'.x, l, r.sent.value);
      assert s'.log == s.log + (Wired(l, r.sent.value) + Progress(l.src, r.sent.value));
    }
  }

  lemma FrameGoesOut(x: Transfers, log: Log, x': Transfers, l: Loop, f: FileFrame)
    requires SendsOk(x, log) && LoopsOk(x') && Current(x) == Some(l) && l.Running?
    requires FrameId(f) == l.src.id && (f.ChunkFrame? || l.ctl.Some?)
    requires x'.history == x.history && x'.returned == x.returned && x'.pendingAck == x.pendingAck && Line(x') == Line(x)
    requires SentOf(Current(x')) == SentOf(Current(x)) + [f]
    ensures SendsOk(x', log + (Wired(l, f) + Progress(l.src, f)))
  {
    WiredIsFrame(l, f);
    var e := Wired(l, f)[0];
    FrameKeeps(x, log, x', e);
    ProgressIsNeutral(log + [e], l.src, f);
    assert log + (Wired(l, f) + Progress(l.src, f)) == log + [e] + Progress(l.src, f);
    NeutralKeeps(x', log + [e], x', log + [e] + Progress(l.src, f));
  }

  lemma ProgressIsNeutral(log: Log, src: Source, f: FileFrame)
    ensures NeutralLog(log, log + Progress(src, f))
  {
  }

  lemma LoopKeeps(s: S, id: nat, readOk: bool, buffered: int)
    requires Ok(s) && LoopCanRun(s, id)
    ensures Ok(LoopRuns(s, id, readOk, buffered))
  {
    match s.x.loops[id] {
      case Reading(_, _, _) => ReadKeeps(s, id, readOk);
      case Exiting => ExitKeeps(s, id);
      case Running(_, _, _, job, _, _) =>
        if Suspended(job) { JobRunsOnKeeps(s, id, buffered); } else { JobEndedKeeps(s, id); }
    }
  }

  /** A loop is started where none was running. */
  lemma StartIsOk(s: S)
    requires Ok(s) && !s.x.draining
    ensures TopOk(s.(x := s.x.(draining := true, nextLoop := s.x.nextLoop + 1)), s.x.nextLoop)
  {
    var x' := AtTop(s.(x := s.x.(draining := true, nextLoop := s.x.nextLoop + 1)), s.x.nextLoop).x;
    assert s.x.loops.Keys == {};
    assert x'.loops.Keys == {s.x.nextLoop};
    SameLineKeeps(s.x, s.log, x');
  }

  lemma SendFileKeeps(s: S, src: Source)
    requires Ok(s) && src.id !in s.x.returned
    ensures Ok(SendFile(s, src))
  {
    if CanSend(s) && 0 < |src.bytes| <= MAX_FILE_BYTES {
      var s1 := s.(x := s.x.(queue := s.x.queue + [Queued(src, |s.x.returned|)], returned := s.x.returned + [src.id]));
      PushKeeps(s.x, s.log, src);
      if !s.x.draining {
        StartIsOk(s1);
        LoopTopKeeps(s1.(x := s1.x.(draining := true, nextLoop := s1.x.nextLoop + 1)), s1.x.nextLoop);
      }
    }
  }

  /** An accepted file is queued, held or being read. */
  lemma AcceptedIsAlive(s: S, src: Source)
    requires Ok(s) && src.id !in s.x.returned && CanSend(s) && 0 < |src.bytes| <= MAX_FILE_BYTES
    ensures var r := SendFile(s, src);
            r.x.draining && r.x.returned == s.x.returned + [src.id] && Alive(r.x, src.id)
  {
    hide Alive, LoopTop, FramesOk, QueueOk, FailsOk;
    var x1 := s.x.(queue := s.x.queue + [Queued(src, |s.x.returned|)], returned := s.x.returned + [src.id]);
    PushedIsAlive(s.x, x1, src);
    if !s.x.draining {
      StartsAlive(s, x1, src.id);
    }
  }

  lemma PushedIsAlive(x: Transfers, x1: Transfers, src: Source)
    requires x1 == x.(queue := x.queue + [Queued(src, |x.returned|)], returned := x.returned + [src.id])
    ensures Alive(x1, src.id)
  {
    LinePushed(x, src);
    AlivePushed(x, x1, src, src.id);
  }

  lemma StartsAlive(s: S, x1: Transfers, id: string)
    requires LoopsOk(s.x) && !s.x.draining && CanSend(s) && x1.queue != [] && Alive(x1, id)
    requires x1 == s.x.(queue := x1.queue, returned := x1.returned)
    ensures var t := s.(x := x1.(draining := true, nextLoop := x1.nextLoop + 1));
            var r := LoopTop(t, x1.nextLoop);
            r.x.draining && r.x.returned == x1.returned && Alive(r.x, id)
  {
    var t := s.(x := x1.(draining := true, nextLoop := x1.nextLoop + 1));
    var r := LoopTop(t, x1.nextLoop);
    assert x1.loops.Keys == {};
    HeadIsHeld(x1, r.x, x1.queue[0]);
    SamePlace(x1, r.x, id);
  }

  /** A cancelled transfer that was not the active one is nowhere any more. */
  lemma CancelledIsGone(s: S, id: string)
    requires Ok(s) && ActiveId(s.x) != Some(id)
    ensures var r := CancelFile(s, id);
            && !IsQueued(r.x.queue, id) && r.x.pendingAck != Some(id)
            && (r.x.receive.Some? ==> r.x.receive.value.r.id != id)
  {
    var s1 := CancelInQueue(s, id);
    UnqueuedIsGone(s, id);
    CancelReceiveQueue(s1, id);
    CancelAckQueue(CancelReceive(s1, id), id);
    CancelEmpties(s1, id);
  }

  lemma CancelEmpties(s: S, id: string)
    ensures var r := CancelPendingAck(CancelReceive(s, id), id, Cancelled);
            r.x.pendingAck != Some(id) && (r.x.receive.Some? ==> r.x.receive.value.r.id != id)
  {
  }

  lemma UnqueuedIsGone(s: S, id: string)
    requires Ok(s)
    ensures !IsQueued(CancelInQueue(s, id).x.queue, id)
  {
    if IsQueued(s.x.queue, id) {
      var k := CancelQueuedWithout(s.x.queue, id);
      AliveWithout(s.x, k, id);
      QueuedIsAlive(s.x.(queue := Without(s.x.queue, k)), id);
    }
  }

  lemma QueuedIsAlive(x: Transfers, id: string)
    ensures IsQueued(x.queue, id) ==> Alive(x, id)
  {
    if i :| 0 <= i < |x.queue| && x.queue[i].src.id == id {
      assert Line(x)[|Line(x)| - |x.queue| + i].id == id;
    }
  }

  // ---- every run ----

  lemma CancelKeeps(s: S, id: string)
    requires Ok(s)
    ensures Ok(CancelFile(s, id))
  {
    if ActiveId(s.x) == Some(id) {
      StopKeeps(s.x, s.log, Cancelled);
    } else {
      CancelInQueueKeeps(s, id);
      var s1 := CancelInQueue(s, id);
      CancelReceiveKeeps(s1, id);
      CancelAckKeeps(CancelReceive(s1, id), id);
    }
  }

  lemma CancelReceiveKeeps(s: S, id: string)
    requires Ok(s)
    ensures Ok(CancelReceive(s, id))
  {
    FailReceiveIsQuiet(s, id, Cancelled);
    NeutralKeeps(s.x, s.log, FailReceive(s, id, Cancelled).x, FailReceive(s, id, Cancelled).log);
  }

  lemma CancelAckKeeps(s: S, id: string)
    requires Ok(s)
    ensures Ok(CancelPendingAck(s, id, Cancelled))
  {
    if s.x.pendingAck == Some(id) {
      AckFailKeeps(s.x, s.log, Cancelled);
    }
  }

  ghost function Discipline(): Property {
    (s: S) => Ok(s)
  }

  lemma NeutralOk(s: S, s': S)
    requires Ok(s) && (Quiet(s, s') || Works(s, s'))
    ensures Ok(s')
  {
    hide SendsOk;
    NeutralKeeps(s.x, s.log, s'.x, s'.log);
  }

  lemma DisciplineIsClosed()
    ensures ClosedUnderHandler(Discipline()) && ClosedUnderSecuring(Discipline()) && ClosedUnderTokens(Discipline())
  {
    forall s, s' | Ok(s) && (Quiet(s, s') || Works(s, s')) ensures Ok(s') {
      NeutralOk(s, s');
    }
    forall s | Ok(s) ensures Ok(FailAllTransfers(s)) {
      FailAllKeeps(s);
    }
    forall s, reason | Ok(s) ensures Ok(Stopped(s, reason)) {
      StopKeeps(s.x, s.log, reason);
    }
    forall s | Ok(s) ensures Ok(AckForgotten(s)) {
      ForgetAckKeeps(s.x, s.log);
    }
    forall s: S, reason | Ok(s) && s.x.pendingAck.Some? ensures Ok(AckFailed(s, reason)) {
      AckFailKeeps(s.x, s.log, reason);
    }
    forall s | Ok(s) ensures Ok(BecomeSecure(s)) {
      NeutralKeeps(s.x, s.log, BecomeSecure(s).x, BecomeSecure(s).log);
    }
  }

  lemma AppKeeps(s: S, p: Message)
    requires Ok(s) && IsApp(p)
    ensures Ok(SendApp(s, p))
  {
    NeutralKeeps(s.x, s.log, s.x, SendApp(s, p).log);
  }

  lemma TailKeeps(s: S)
    requires Ok(s) && s.tail.Some?
    ensures Ok(EndTail(s))
  {
    NeutralKeeps(s.x, s.log, s.x, EndTail(s).log);
  }

  lemma NextKeeps(hash: seq<byte> -> string, s: S, a: Action)
    requires Ok(s) && Enabled(s, a)
    ensures Ok(Next(hash, s, a))
  {
    if a.FileOffered? {
      SendFileKeeps(s, a.src);
    } else if a.FileCancelled? {
      CancelKeeps(s, a.id);
    } else if a.LoopRunsOn? {
      LoopKeeps(s, a.loop, a.readOk, a.buffered);
    } else if a.ChannelDrained? {
      DrainKeeps(s);
    } else if a.AppSends? {
      AppKeeps(s, a.payload);
    } else if a.EndTailRuns? {
      TailKeeps(s);
    } else {
      OtherStepOk(hash, s, a);
    }
  }

  lemma OtherStepOk(hash: seq<byte> -> string, s: S, a: Action)
    requires Ok(s) && Enabled(s, a) && !IsSendStep(a)
    ensures Ok(Next(hash, s, a))
  {
    DisciplineIsClosed();
    StepKeeps(Discipline(), hash, s, a);
  }

  lemma FreshOk(secret: nat, inviteWindowMs: int, graceDurationMs: int, token: Option<Token>)
    ensures Ok(Fresh(secret, inviteWindowMs, graceDurationMs, token))
  {
    var s := Fresh(secret, inviteWindowMs, graceDurationMs, token);
    NothingYet();
    NeutralKeeps(NO_TRANSFERS, [], s.x, s.log);
  }

  lemma NothingYet()
    ensures SendsOk(NO_TRANSFERS, [])
  {
    assert Line(NO_TRANSFERS) == [] && NO_TRANSFERS.loops.Keys == {};
    forall id ensures FailsOk(NO_TRANSFERS, [], id) {
    }
  }

  lemma {:induction false} RunKeeps(hash: seq<byte> -> string, s: S, actions: seq<Action>)
    requires Ok(s) && IsRun(hash, s, actions)
    ensures Ok(Run(hash, s, actions))
    decreases |actions|
  {
    if actions != [] {
      NextKeeps(hash, s, actions[0]);
      RunKeeps(hash, Next(hash, s, actions[0]), actions[1..]);
    }
  }

  // ---- single sender ----

  /** What was sent so far, transfer by transfer. */
  function Blocks(x: Transfers): seq<Block> {
    x.history + match Current(x)
                case Some(Running(src, _, ticket, _, _, sent)) => [Block(src, ticket, sent)]
                case _ => []
  }

  /** Over every run, however often sendFile is called: there is at most one
      drain loop, and the file frames sent are one block after the other, in
      sendFile order, each a prefix of its transfer's offer, chunks and done. */
  lemma SingleSender(hash: seq<byte> -> string, secret: nat, inviteWindowMs: int, graceDurationMs: int,
                     token: Option<Token>, actions: seq<Action>)
    requires IsRun(hash, Fresh(secret, inviteWindowMs, graceDurationMs, token), actions)
    ensures var s := Run(hash, Fresh(secret, inviteWindowMs, graceDurationMs, token), actions);
            var blocks := Blocks(s.x);
            && |s.x.loops.Keys| == (if s.x.draining then 1 else 0)
            && FileFrames(s.log) == Flatten(blocks)
            && (forall i :: 0 <= i < |blocks| ==>
                  && blocks[i].sent <= Script(blocks[i].src)
                  && blocks[i].ticket < |s.x.returned| && s.x.returned[blocks[i].ticket] == blocks[i].src.id)
            && (forall i, j :: 0 <= i < j < |blocks| ==> blocks[i].ticket < blocks[j].ticket)
  {
    FreshOk(secret, inviteWindowMs, graceDurationMs, token);
    RunKeeps(hash, Fresh(secret, inviteWindowMs, graceDurationMs, token), actions);
    var s := Run(hash, Fresh(secret, inviteWindowMs, graceDurationMs, token), actions);
    OneLoop(s);
    FramesAreBlocks(s);
    var blocks := Blocks(s.x);
    forall i | 0 <= i < |blocks|
      ensures blocks[i].sent <= Script(blocks[i].src)
      ensures i < |Line(s.x)| && Line(s.x)[i] == Ticketed(blocks[i].src.id, blocks[i].ticket)
    {
      BlockIsPrefix(s, i);
      BlockInLine(s, i);
    }
  }

  lemma OneLoop(s: S)
    requires Ok(s)
    ensures |s.x.loops.Keys| == (if s.x.draining then 1 else 0)
  {
    if s.x.draining {
      assert s.x.loops.Keys == {s.x.nextLoop - 1};
    }
  }

  lemma FramesAreBlocks(s: S)
    requires Ok(s)
    ensures FileFrames(s.log) == Flatten(Blocks(s.x))
  {
    var x, blocks := s.x, Blocks(s.x);
    if |blocks| > |x.history| {
      FlattenAppend(x.history, blocks[|x.history|]);
    } else {
      assert blocks == x.history;
    }
  }

  lemma BlockIsPrefix(s: S, i: nat)
    requires Ok(s) && i < |Blocks(s.x)|
    ensures Blocks(s.x)[i].sent <= Script(Blocks(s.x)[i].src)
  {
    if i == |s.x.history| {
      var l := Current(s.x).value;
      PrefixOfScript(l.src, Sending(l.job, l.sent));
    }
  }

  lemma BlockInLine(s: S, i: nat)
    requires Ok(s) && i < |Blocks(s.x)|
    ensures i < |Line(s.x)| && Line(s.x)[i] == Ticketed(Blocks(s.x)[i].src.id, Blocks(s.x)[i].ticket)
  {
  }

  lemma PrefixOfScript(src: Source, s: Sending)
    requires SendOk(src, s)
    ensures s.sent <= Script(src)
  {
    if s.job.at != Returned(true) {
      assert Cut(src, s.sent);
      CutIsPrefix(src, s.sent);
    }
  }

  // ---- conservation ----

  predicate IsHeld(x: Transfers, id: string) {
    Held(Current(x)) != [] && Held(Current(x))[0].id == id
  }

  function Count(b: bool): nat {
    if b then 1 else 0
  }

  /** Over every run: each id sendFile returned is in exactly one place: queued,
      held by the drain loop, fully sent, or failed before it was fully sent. It
      is reported failed at most once, and nothing of it goes out afterwards. */
  lemma SendConservation(hash: seq<byte> -> string, secret: nat, inviteWindowMs: int, graceDurationMs: int,
                         token: Option<Token>, actions: seq<Action>, t: nat)
    requires IsRun(hash, Fresh(secret, inviteWindowMs, graceDurationMs, token), actions)
    requires t < |Run(hash, Fresh(secret, inviteWindowMs, graceDurationMs, token), actions).x.returned|
    ensures var s := Run(hash, Fresh(secret, inviteWindowMs, graceDurationMs, token), actions);
            var id := s.x.returned[t];
            && Count(IsQueued(s.x.queue, id)) + Count(IsHeld(s.x, id)) + Count(FullySent(s.x, id))
               + Count(FailCount(s.log, id) > 0 && !FullySent(s.x, id)) == 1
            && FailCount(s.log, id) <= 1
            && Clean(s.log)
  {
    FreshOk(secret, inviteWindowMs, graceDurationMs, token);
    RunKeeps(hash, Fresh(secret, inviteWindowMs, graceDurationMs, token), actions);
    var s := Run(hash, Fresh(secret, inviteWindowMs, graceDurationMs, token), actions);
    InOnePlace(s.x, s.log, s.x.returned[t]);
  }

  lemma InOnePlace(x: Transfers, log: Log, id: string)
    requires SendsOk(x, log) && id in x.returned
    ensures Count(IsQueued(x.queue, id)) + Count(IsHeld(x, id)) + Count(FullySent(x, id))
            + Count(FailCount(log, id) > 0 && !FullySent(x, id)) == 1
    ensures FailCount(log, id) <= 1
  {
    assert FailsOk(x, log, id);
    AliveIsQueuedOrHeld(x, id);
    if FullySent(x, id) {
      FullySentIsSettled(x, id);
    }
  }

  lemma AliveIsQueuedOrHeld(x: Transfers, id: string)
    requires QueueOk(x)
    ensures Alive(x, id) <==> IsQueued(x.queue, id) || IsHeld(x, id)
    ensures !(IsQueued(x.queue, id) && IsHeld(x, id))
  {
    var line := Line(x);
    var first := |line| - |x.queue|;
    if IsQueued(x.queue, id) {
      var i :| 0 <= i < |x.queue| && x.queue[i].src.id == id;
      assert line[first + i].id == id;
    }
    if IsHeld(x, id) {
      assert line[|x.history|].id == id;
    }
    if Alive(x, id) {
      var i :| |x.history| <= i < |line| && line[i].id == id;
      if i >= first {
        assert x.queue[i - first].src.id == id;
      }
    }
  }

  // ---- a gap in the drain loop ----

  /** Transfers wait and no loop will take them up. */
  predicate Stranded(x: Transfers) {
    x.queue != [] && !x.draining
  }

  /** drainSendQueue lowers its flag one turn after its loop saw an empty queue. A
      session that is secure and idle strands a file offered in that turn: here
      `first` cannot be read, and `second` is offered before the flag falls. */
  lemma OfferedInTheGapStrands(hash: seq<byte> -> string, s: S, first: Source, second: Source)
    requires Ok(s) && CanSend(s) && !s.x.draining && s.x.queue == []
    requires 0 < |first.bytes| <= MAX_FILE_BYTES && 0 < |second.bytes| <= MAX_FILE_BYTES
    requires first.id !in s.x.returned && second.id !in s.x.returned && first.id != second.id
    ensures var id := s.x.nextLoop;
            var s1 := SendFile(s, first);
            && LoopCanRun(s1, id) && s1.x.loops[id].Reading?
            && var s2 := SendFile(LoopRuns(s1, id, false, 0), second);
               && LoopCanRun(s2, id) && s2.x.loops[id].Exiting?
               && Stranded(LoopRuns(s2, id, false, 0).x)
  {
    assert s.x.loops.Keys == {};
  }

  lemma {:induction false} LoopTopStrandsNothing(s: S, id: nat)
    ensures LoopTop(s, id).x.draining == s.x.draining
    decreases |s.x.queue|
  {
    if s.x.queue != [] && !CanSend(s) {
      var q := s.x.queue[0];
      LoopTopStrandsNothing(Settled(s.(x := s.x.(queue := s.x.queue[1..])), Block(q.src, q.ticket, []), Some(Disconnected)), id);
    }
  }

  lemma JobEndedStrandsNothing(s: S, id: nat)
    requires id in s.x.loops && s.x.loops[id].Running? && !Suspended(s.x.loops[id].job)
    ensures JobEnded(s, id).x.draining == s.x.draining
  {
    var l := s.x.loops[id];
    var b := Block(l.src, l.ticket, l.sent);
    var s1 := s.(x := s.x.(activeSend := None));
    var s2 := if l.job.at == Returned(true) then Settled(s1.(x := s1.x.(pendingAck := Some(l.src.id))), b, None)
              else Settled(s1, b, Some(WhyFailed(s, l.job)));
    assert s2.x.draining == s.x.draining;
    LoopTopStrandsNothing(s2, id);
  }

  lemma LoopStrands(s: S, id: nat, readOk: bool, buffered: int)
    requires Ok(s) && LoopCanRun(s, id)
    ensures Stranded(LoopRuns(s, id, readOk, buffered).x) <==> s.x.loops[id].Exiting? && s.x.queue != []
  {
    RunningIsCurrent(s.x, id);
    match s.x.loops[id] {
      case Reading(src, _, ticket) =>
        LoopTopStrandsNothing(Settled(s, Block(src, ticket, []), Some(Failed)), id);
      case Exiting =>
      case Running(_, _, _, job, _, _) =>
        if !Suspended(job) { JobEndedStrandsNothing(s, id); }
    }
  }

  lemma SendFileStrandsNothing(s: S, src: Source)
    requires !Stranded(s.x)
    ensures !Stranded(SendFile(s, src).x)
  {
    if CanSend(s) && 0 < |src.bytes| <= MAX_FILE_BYTES && !s.x.draining {
      var x1 := s.x.(queue := s.x.queue + [Queued(src, |s.x.returned|)], returned := s.x.returned + [src.id]);
      LoopTopStrandsNothing(s.(x := x1.(draining := true, nextLoop := x1.nextLoop + 1)), x1.nextLoop);
    }
  }

  lemma CancelStrandsNothing(s: S, id: string)
    requires !Stranded(s.x)
    ensures !Stranded(CancelFile(s, id).x)
  {
    var s1 := CancelInQueue(s, id);
    assert !Stranded(s1.x);
    CancelReceiveQueue(s1, id);
    CancelAckQueue(CancelReceive(s1, id), id);
  }

  lemma CancelReceiveQueue(s: S, id: string)
    ensures var x := CancelReceive(s, id).x; x.queue == s.x.queue && x.draining == s.x.draining
  {
  }

  lemma CancelAckQueue(s: S, id: string)
    ensures var x := CancelPendingAck(s, id, Cancelled).x; x.queue == s.x.queue && x.draining == s.x.draining
  {
  }

  ghost function NotStranded(): Property {
    (s: S) => !Stranded(s.x)
  }

  lemma NotStrandedIsClosed()
    ensures ClosedUnderHandler(NotStranded()) && ClosedUnderSecuring(NotStranded()) && ClosedUnderTokens(NotStranded())
  {
  }

  /** That gap is the only way: a step strands transfers if and only if it is the
      end of a loop that has transfers waiting behind it. */
  lemma StrandsOnlyInTheGap(hash: seq<byte> -> string, s: S, a: Action)
    requires Ok(s) && Enabled(s, a) && !Stranded(s.x)
    ensures Stranded(Next(hash, s, a).x) <==> a.LoopRunsOn? && s.x.loops[a.loop].Exiting? && s.x.queue != []
  {
    if a.FileOffered? {
      SendFileStrandsNothing(s, a.src);
    } else if a.FileCancelled? {
      CancelStrandsNothing(s, a.id);
    } else if a.LoopRunsOn? {
      LoopStrands(s, a.loop, a.readOk, a.buffered);
    } else if !IsSendStep(a) {
      NotStrandedIsClosed();
      StepKeeps(NotStranded(), hash, s, a);
    }
  }
}
