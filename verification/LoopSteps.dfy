/** What the steps of the send queue do to the drain loop, the queue and the log.
    A property of loops that survives what can happen to a loop, together with one
    of queued transfers, survives the step; and what goes out is what the loops
    that have it can send. */
module LoopSteps {
  import opened Wrappers
  import opened Base64url
  import opened Wire
  import opened FileTransfer
  import opened Session

  type LoopProperty = Loop -> bool
  type QueuedProperty = Queued -> bool
  type EntryProperty = Entry -> bool

  ghost predicate Loops(x: Transfers, q: LoopProperty) {
    forall id :: id in x.loops ==> q(x.loops[id])
  }

  ghost predicate Queue(x: Transfers, qq: QueuedProperty) {
    forall i :: 0 <= i < |x.queue| ==> qq(x.queue[i])
  }

  /** `after` extends `before` by entries that have `p`. */
  ghost predicate Logs(before: Log, after: Log, p: EntryProperty) {
    before <= after && forall i :: |before| <= i < |after| ==> p(after[i])
  }

  function AnyQueued(): QueuedProperty {
    (u: Queued) => true
  }

  function AnyEntry(): EntryProperty {
    (e: Entry) => true
  }

  function Told(l: Loop, reason: FailReason): Loop
    requires l.Running?
  {
    l.(job := Stop(l.job, reason))
  }

  function Unparked(l: Loop): Loop
    requires l.Running?
  {
    l.(job := BufferedLow(l.job))
  }

  /** What can happen to a loop while the session is as in `s`. */
  ghost predicate Survives(s: S, q: LoopProperty, qq: QueuedProperty, p: EntryProperty) {
    && q(Exiting) && (forall id, reason {:trigger FileFailed(id, Outgoing, reason)} :: p(Emit(FileFailed(id, Outgoing, reason))))
    && (forall u {:trigger qq(u)} :: qq(u) && CanSend(s) ==> q(Reading(u.src, s.hs.key.value, u.ticket)))
    && (forall src, key, ticket {:trigger Reading(src, key, ticket)} ::
          q(Reading(src, key, ticket)) ==> q(Running(src, key, ticket, STARTED, None, [])))
    && (forall l, buffered {:trigger RanOn(s, l, buffered)} :: q(l) && JobCanRun(l) ==>
          q(RanOn(s, l, buffered)) && forall e :: e in RanLog(s, l, buffered) ==> p(e))
    && (forall l: Loop, reason {:trigger Told(l, reason)} :: q(l) && l.Running? ==> q(Told(l, reason)))
    && (forall l: Loop {:trigger Unparked(l)} :: q(l) && l.Running? ==> q(Unparked(l)))
  }

  ghost predicate Has(s: S, q: LoopProperty, qq: QueuedProperty) {
    Loops(s.x, q) && Queue(s.x, qq)
  }

  /** The step kept the properties, and every id sendFile returned. */
  ghost predicate Kept(s: S, s': S, q: LoopProperty, qq: QueuedProperty, p: EntryProperty) {
    Has(s', q, qq) && Logs(s.log, s'.log, p) && s.x.returned <= s'.x.returned
  }

  lemma PutKeeps(x: Transfers, id: nat, l: Loop, q: LoopProperty)
    requires Loops(x, q) && q(l)
    ensures Loops(PutLoop(x, id, l), q)
  {
  }

  lemma StopKeepsLoops(s: S, reason: FailReason, q: LoopProperty, qq: QueuedProperty, p: EntryProperty)
    requires Survives(s, q, qq, p) && Loops(s.x, q)
    ensures Loops(StopActive(s.x, reason), q)
  {
    var x := s.x;
    if x.activeSend.Some? && x.activeSend.value in x.loops && x.loops[x.activeSend.value].Running? {
      PutKeeps(x, x.activeSend.value, Told(x.loops[x.activeSend.value], reason), q);
    }
  }

  /** A failure is reported, the head of the queue dropped: the loop is as before. */
  lemma {:induction false} TopKeeps(s: S, t: S, id: nat, q: LoopProperty, qq: QueuedProperty, p: EntryProperty)
    requires Survives(s, q, qq, p) && t == s.(x := t.x, log := t.log) && Kept(s, t, q, qq, p)
    ensures Kept(s, LoopTop(t, id), q, qq, p)
    decreases |t.x.queue|
  {
    if t.x.queue == [] {
      PutKeeps(t.x, id, Exiting, q);
    } else {
      var u := t.x.queue[0];
      assert qq(u);
      var t1 := t.(x := t.x.(queue := t.x.queue[1..]));
      assert Loops(t1.x, q) && Queue(t1.x, qq);
      if CanSend(t) {
        PutKeeps(t1.x, id, Reading(u.src, t.hs.key.value, u.ticket), q);
      } else {
        SettledKeeps(s, t1, Block(u.src, u.ticket, []), Some(Disconnected), q, qq, p);
        TopKeeps(s, Settled(t1, Block(u.src, u.ticket, []), Some(Disconnected)), id, q, qq, p);
      }
    }
  }

  lemma SettledKeeps(s: S, t: S, b: Block, failed: Option<FailReason>, q: LoopProperty, qq: QueuedProperty, p: EntryProperty)
    requires Survives(s, q, qq, p) && Kept(s, t, q, qq, p)
    ensures Kept(s, Settled(t, b, failed), q, qq, p)
  {
    if failed.Some? {
      assert p(Emit(FileFailed(b.src.id, Outgoing, failed.value)));
    }
  }

  lemma SettledThenTopKeeps(s: S, t: S, id: nat, b: Block, failed: Option<FailReason>,
                            q: LoopProperty, qq: QueuedProperty, p: EntryProperty)
    requires Survives(s, q, qq, p) && t == s.(x := t.x) && Has(t, q, qq) && t.x.returned == s.x.returned
    ensures Kept(s, LoopTop(Settled(t, b, failed), id), q, qq, p)
  {
    SettledKeeps(s, t, b, failed, q, qq, p);
    TopKeeps(s, Settled(t, b, failed), id, q, qq, p);
  }

  lemma JobEndedKeeps(s: S, id: nat, q: LoopProperty, qq: QueuedProperty, p: EntryProperty)
    requires Survives(s, q, qq, p) && Has(s, q, qq)
    requires id in s.x.loops && s.x.loops[id].Running? && !Suspended(s.x.loops[id].job)
    ensures Kept(s, JobEnded(s, id), q, qq, p)
  {
    var l := s.x.loops[id];
    var b := Block(l.src, l.ticket, l.sent);
    var s1 := s.(x := s.x.(activeSend := None));
    if l.job.at == Returned(true) {
      SettledThenTopKeeps(s, s1.(x := s1.x.(pendingAck := Some(l.src.id))), id, b, None, q, qq, p);
    } else {
      var reason := WhyFailed(s, l.job);
      SettledThenTopKeeps(s, s1, id, b, Some(reason), q, qq, p);
    }
  }

  lemma ReadKeeps(s: S, id: nat, ok: bool, q: LoopProperty, qq: QueuedProperty, p: EntryProperty)
    requires Survives(s, q, qq, p) && Has(s, q, qq) && id in s.x.loops && s.x.loops[id].Reading?
    ensures Kept(s, AfterRead(s, id, ok), q, qq, p)
  {
    var l := s.x.loops[id];
    if ok {
      assert q(Reading(l.src, l.key, l.ticket));
      PutKeeps(s.x, id, Running(l.src, l.key, l.ticket, STARTED, None, []), q);
    } else {
      SettledThenTopKeeps(s, s, id, Block(l.src, l.ticket, []), Some(Failed), q, qq, p);
    }
  }

  lemma JobRunsOnKeeps(s: S, id: nat, buffered: int, q: LoopProperty, qq: QueuedProperty, p: EntryProperty)
    requires Survives(s, q, qq, p) && Has(s, q, qq) && id in s.x.loops && JobCanRun(s.x.loops[id])
    ensures Kept(s, JobRunsOn(s, id, buffered), q, qq, p)
  {
    var l := s.x.loops[id];
    assert q(RanOn(s, l, buffered));
    PutKeeps(s.x, id, RanOn(s, l, buffered), q);
    var more := RanLog(s, l, buffered);
    assert forall i :: 0 <= i < |more| ==> more[i] in more;
  }

  lemma LoopStepKeeps(s: S, id: nat, readOk: bool, buffered: int, q: LoopProperty, qq: QueuedProperty, p: EntryProperty)
    requires Survives(s, q, qq, p) && Has(s, q, qq) && LoopCanRun(s, id)
    ensures Kept(s, LoopRuns(s, id, readOk, buffered), q, qq, p)
  {
    match s.x.loops[id] {
      case Reading(_, _, _) => ReadKeeps(s, id, readOk, q, qq, p);
      case Exiting =>
      case Running(_, _, _, job, _, _) =>
        if Suspended(job) { JobRunsOnKeeps(s, id, buffered, q, qq, p); } else { JobEndedKeeps(s, id, q, qq, p); }
    }
  }

  lemma OfferedKeeps(s: S, src: Source, q: LoopProperty, qq: QueuedProperty, p: EntryProperty)
    requires Survives(s, q, qq, p) && Has(s, q, qq)
    requires 0 < |src.bytes| <= MAX_FILE_BYTES ==> qq(Queued(src, |s.x.returned|))
    ensures Kept(s, SendFile(s, src), q, qq, p)
  {
    if CanSend(s) && 0 < |src.bytes| <= MAX_FILE_BYTES {
      var s1 := s.(x := s.x.(queue := s.x.queue + [Queued(src, |s.x.returned|)], returned := s.x.returned + [src.id]));
      assert Has(s1, q, qq);
      if !s.x.draining {
        TopKeeps(s, s1.(x := s1.x.(draining := true, nextLoop := s1.x.nextLoop + 1)), s1.x.nextLoop, q, qq, p);
      }
    }
  }

  lemma {:induction false} CancelQueuedKeeps(queue: seq<Queued>, id: string, qq: QueuedProperty)
    requires forall i :: 0 <= i < |queue| ==> qq(queue[i])
    ensures forall i :: 0 <= i < |CancelQueued(queue, id)| ==> qq(CancelQueued(queue, id)[i])
  {
    if queue != [] && queue[0].src.id != id {
      CancelQueuedKeeps(queue[1..], id, qq);
    }
  }

  lemma CancelInQueueKeeps(s: S, id: string, q: LoopProperty, qq: QueuedProperty, p: EntryProperty)
    requires Survives(s, q, qq, p) && Has(s, q, qq)
    ensures Kept(s, CancelInQueue(s, id), q, qq, p)
  {
    CancelQueuedKeeps(s.x.queue, id, qq);
    assert p(Emit(FileFailed(id, Outgoing, Cancelled)));
  }

  /** What a cancelled receive reports has the property too. */
  ghost predicate SurvivesCancel(s: S, a: Action, p: EntryProperty) {
    a.FileCancelled? && s.x.receive.Some? ==> p(Emit(FileFailed(a.id, Incoming, Cancelled)))
  }

  /** The receive slot is emptied, and a failure reported, or nothing happens. */
  lemma CancelReceiveKeeps(s: S, t: S, id: string, q: LoopProperty, qq: QueuedProperty, p: EntryProperty)
    requires Survives(s, q, qq, p) && Kept(s, t, q, qq, p)
    requires t.x.receive.Some? ==> p(Emit(FileFailed(id, Incoming, Cancelled)))
    ensures Kept(s, CancelReceive(t, id), q, qq, p)
  {
    assert CancelReceive(t, id).x == t.x.(receive := CancelReceive(t, id).x.receive);
  }

  /** So with the awaited ack. */
  lemma CancelAckKeeps(s: S, t: S, id: string, q: LoopProperty, qq: QueuedProperty, p: EntryProperty)
    requires Survives(s, q, qq, p) && Kept(s, t, q, qq, p)
    ensures Kept(s, CancelPendingAck(t, id, Cancelled), q, qq, p)
  {
    assert p(Emit(FileFailed(id, Outgoing, Cancelled)));
    assert CancelPendingAck(t, id, Cancelled).x == t.x.(pendingAck := CancelPendingAck(t, id, Cancelled).x.pendingAck);
  }

  lemma CancelledKeeps(s: S, id: string, q: LoopProperty, qq: QueuedProperty, p: EntryProperty)
    requires Survives(s, q, qq, p) && Has(s, q, qq) && SurvivesCancel(s, FileCancelled(id), p)
    ensures Kept(s, CancelFile(s, id), q, qq, p)
  {
    if ActiveId(s.x) == Some(id) {
      StopKeepsLoops(s, Cancelled, q, qq, p);
    } else {
      CancelInQueueKeeps(s, id, q, qq, p);
      CancelReceiveKeeps(s, CancelInQueue(s, id), id, q, qq, p);
      CancelAckKeeps(s, CancelReceive(CancelInQueue(s, id), id), id, q, qq, p);
    }
  }

  lemma DrainedKeeps(s: S, q: LoopProperty, qq: QueuedProperty, p: EntryProperty)
    requires Survives(s, q, qq, p) && Has(s, q, qq)
    ensures Kept(s, BufferLow(s), q, qq, p)
  {
    forall id | id in s.x.loops ensures q(BufferLow(s).x.loops[id]) {
      if s.x.loops[id].Running? {
        assert q(Unparked(s.x.loops[id]));
      }
    }
  }

  /** The steps of the queue and its drain loop. */
  predicate IsQueueStep(a: Action) {
    a.FileOffered? || a.FileCancelled? || a.LoopRunsOn? || a.ChannelDrained?
  }

  lemma QueueStepKeeps(hash: seq<byte> -> string, s: S, a: Action, q: LoopProperty, qq: QueuedProperty, p: EntryProperty)
    requires Survives(s, q, qq, p) && Has(s, q, qq) && Enabled(s, a) && IsQueueStep(a)
    requires a.FileOffered? && 0 < |a.src.bytes| <= MAX_FILE_BYTES ==> qq(Queued(a.src, |s.x.returned|))
    requires SurvivesCancel(s, a, p)
    ensures Kept(s, Next(hash, s, a), q, qq, p)
  {
    match a {
      case FileOffered(src) => OfferedKeeps(s, src, q, qq, p);
      case FileCancelled(id) => CancelledKeeps(s, id, q, qq, p);
      case LoopRunsOn(id, readOk, buffered) => LoopStepKeeps(s, id, readOk, buffered, q, qq, p);
      case ChannelDrained => DrainedKeeps(s, q, qq, p);
    }
  }
}
