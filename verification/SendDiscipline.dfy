/** The outgoing side of file transfer: what every step keeps of the send queue,
    the drain loop and the log. */
module SendDiscipline {
  import opened Wrappers
  import opened Base64url
  import opened Wire
  import opened FileTransfer
  import opened TransferTheorems
  import opened Session

  // ---- reading the log ----

  /** The transfer a send-side failure is reported for. */
  function FailId(e: Entry): Option<string> {
    if e.Emit? && e.event.FileFailed? && e.event.direction == Outgoing then Some(e.event.id) else None
  }

  /** The file-transfer frame an entry puts on the wire. */
  function SentFrame(e: Entry): Option<FileFrame> {
    match e
    case SendBinary(SealedChunk(_, id, seqNo, bytes)) => Some(ChunkFrame(id, seqNo, bytes))
    case SendText(SealedFrame(Sealed(_, Offer(o)))) => Some(OfferFrame(o))
    case SendText(SealedFrame(Sealed(_, FileDone(id, sha256)))) => Some(DoneFrame(id, sha256))
    case _ => None
  }

  function FrameId(f: FileFrame): string {
    match f
    case OfferFrame(o) => o.id
    case ChunkFrame(id, _, _) => id
    case DoneFrame(id, _) => id
  }

  /** How often a send-side failure of `id` was reported. */
  function FailCount(log: Log, id: string): nat {
    if log == [] then 0
    else FailCount(log[..|log| - 1], id) + if FailId(log[|log| - 1]) == Some(id) then 1 else 0
  }

  /** All file-transfer frames sent, in order. */
  function FileFrames(log: Log): seq<FileFrame> {
    if log == [] then []
    else
      var f := SentFrame(log[|log| - 1]);
      FileFrames(log[..|log| - 1]) + if f.Some? then [f.value] else []
  }

  lemma {:induction false} FailCountAppend(a: Log, b: Log, id: string)
    ensures FailCount(a + b, id) == FailCount(a, id) + FailCount(b, id)
    decreases |b|
  {
    if b == [] {
      assert a + b == a;
    } else {
      assert (a + b)[..|a + b| - 1] == a + b[..|b| - 1];
      FailCountAppend(a, b[..|b| - 1], id);
    }
  }

  lemma {:induction false} FileFramesAppend(a: Log, b: Log)
    ensures FileFrames(a + b) == FileFrames(a) + FileFrames(b)
    decreases |b|
  {
    if b == [] {
      assert a + b == a;
    } else {
      assert (a + b)[..|a + b| - 1] == a + b[..|b| - 1];
      FileFramesAppend(a, b[..|b| - 1]);
    }
  }

  lemma {:induction false} NoFails(log: Log, id: string)
    requires forall i :: 0 <= i < |log| ==> FailId(log[i]) != Some(id)
    ensures FailCount(log, id) == 0
  {
    if log != [] {
      NoFails(log[..|log| - 1], id);
    }
  }

  lemma {:induction false} NoFrames(log: Log)
    requires forall i :: 0 <= i < |log| ==> SentFrame(log[i]).None?
    ensures FileFrames(log) == []
  {
    if log != [] {
      NoFrames(log[..|log| - 1]);
    }
  }

  lemma {:induction false} NeverFailed(log: Log, id: string)
    requires FailCount(log, id) == 0
    ensures forall i :: 0 <= i < |log| ==> FailId(log[i]) != Some(id)
  {
    if log != [] {
      NeverFailed(log[..|log| - 1], id);
    }
  }

  lemma OneFail(log: Log, id: string, reason: FailReason, other: string)
    ensures FailCount(log + [Emit(FileFailed(id, Outgoing, reason))], other) == FailCount(log, other) + if other == id then 1 else 0
    ensures FileFrames(log + [Emit(FileFailed(id, Outgoing, reason))]) == FileFrames(log)
  {
    var e := Emit(FileFailed(id, Outgoing, reason));
    assert (log + [e])[..|log|] == log;
  }

  // ---- the line of transfers ----

  datatype Ticketed = Ticketed(id: string, ticket: nat)

  /** The drain loop that is running, if one is. */
  function Current(x: Transfers): Option<Loop> {
    if x.nextLoop > 0 && x.nextLoop - 1 in x.loops then Some(x.loops[x.nextLoop - 1]) else None
  }

  function Behind(history: seq<Block>): (r: seq<Ticketed>)
    ensures |r| == |history|
  {
    seq(|history|, i requires 0 <= i < |history| => Ticketed(history[i].src.id, history[i].ticket))
  }

  /** The transfer the drain loop holds. */
  function Held(l: Option<Loop>): (r: seq<Ticketed>)
    ensures |r| <= 1
  {
    if l.None? || l.value.Exiting? then [] else [Ticketed(l.value.src.id, l.value.ticket)]
  }

  function Waiting(queue: seq<Queued>): (r: seq<Ticketed>)
    ensures |r| == |queue|
  {
    seq(|queue|, i requires 0 <= i < |queue| => Ticketed(queue[i].src.id, queue[i].ticket))
  }

  /** Transfers behind the drain loop, held by it, and waiting. */
  function Line(x: Transfers): seq<Ticketed> {
    Behind(x.history) + Held(Current(x)) + Waiting(x.queue)
  }

  predicate Distinct(ids: seq<string>) {
    forall i, j :: 0 <= i < j < |ids| ==> ids[i] != ids[j]
  }

  /** In sendFile order, each with the id sendFile returned. */
  predicate InOrder(line: seq<Ticketed>, returned: seq<string>) {
    && (forall i :: 0 <= i < |line| ==> line[i].ticket < |returned| && returned[line[i].ticket] == line[i].id)
    && (forall i, j :: 0 <= i < j < |line| ==> line[i].ticket < line[j].ticket)
  }

  lemma LineIdsDistinct(line: seq<Ticketed>, returned: seq<string>, i: nat, j: nat)
    requires Distinct(returned) && InOrder(line, returned) && i < j < |line|
    ensures line[i].id != line[j].id
  {
  }

  // ---- the invariant ----

  /** At most one drain loop, exactly while `draining`, and `activeSend` is its
      job exactly while it runs one. */
  predicate LoopsOk(x: Transfers) {
    && (if x.draining then x.nextLoop > 0 && x.loops.Keys == {x.nextLoop - 1} else x.loops.Keys == {})
    && x.activeSend == (if Current(x).Some? && Current(x).value.Running? then Some(x.nextLoop - 1) else None)
    && (Current(x).Some? ==> LoopOk(Current(x).value))
  }

  predicate LoopOk(l: Loop) {
    l.Running? ==>
      && SendOk(l.src, Sending(l.job, l.sent))
      && (l.job.at.Offering? || l.job.at.Finishing? ==> l.ctl.Some?)
  }

  function SentOf(l: Option<Loop>): seq<FileFrame> {
    if l.Some? && l.value.Running? then l.value.sent else []
  }

  function Flatten(history: seq<Block>): seq<FileFrame> {
    if history == [] then [] else Flatten(history[..|history| - 1]) + history[|history| - 1].sent
  }

  predicate BlocksOk(history: seq<Block>) {
    forall i :: 0 <= i < |history| ==> history[i].sent <= Script(history[i].src)
  }

  predicate IsWhole(b: Block) {
    b.sent == Script(b.src)
  }

  /** The transfer was sent to its end. */
  predicate FullySent(x: Transfers, id: string) {
    exists i :: 0 <= i < |x.history| && x.history[i].src.id == id && IsWhole(x.history[i])
  }

  predicate AppearsFrom(line: seq<Ticketed>, from: nat, id: string) {
    exists i :: from <= i < |line| && line[i].id == id
  }

  /** Held by the drain loop or waiting. */
  predicate Alive(x: Transfers, id: string) {
    AppearsFrom(Line(x), |x.history|, id)
  }

  /** How often the failure of `id` was reported, by where it is. */
  predicate FailsOk(x: Transfers, log: Log, id: string) {
    if id !in x.returned || Alive(x, id) then FailCount(log, id) == 0
    else if FullySent(x, id) then FailCount(log, id) <= (if x.pendingAck == Some(id) then 0 else 1)
    else FailCount(log, id) == 1
  }

  /** Nothing of a transfer goes out after its failure was reported. */
  predicate Clean(log: Log) {
    forall i, j :: 0 <= i < j < |log| && FailId(log[i]).Some? && SentFrame(log[j]).Some? ==>
                     FrameId(SentFrame(log[j]).value) != FailId(log[i]).value
  }

  predicate FramesOk(x: Transfers, log: Log) {
    && FileFrames(log) == Flatten(x.history) + SentOf(Current(x))
    && BlocksOk(x.history) && Clean(log)
  }

  predicate QueueOk(x: Transfers) {
    && Distinct(x.returned) && InOrder(Line(x), x.returned)
    && (x.pendingAck.Some? ==> FullySent(x, x.pendingAck.value))
  }

  ghost predicate SendsOk(x: Transfers, log: Log) {
    && LoopsOk(x) && QueueOk(x) && FramesOk(x, log)
    && forall id :: FailsOk(x, log, id)
  }

  ghost predicate Ok(s: S) {
    SendsOk(s.x, s.log)
  }

  /** Where a transfer is depends only on the line and the history. */
  lemma SamePlace(x: Transfers, x': Transfers, id: string)
    requires x'.history == x.history && Line(x') == Line(x)
    ensures Alive(x', id) == Alive(x, id) && FullySent(x', id) == FullySent(x, id)
  {
    assert FullySent(x, id) ==> exists i :: 0 <= i < |x'.history| && x'.history[i].src.id == id && IsWhole(x'.history[i]);
    assert FullySent(x', id) ==> exists i :: 0 <= i < |x.history| && x.history[i].src.id == id && IsWhole(x.history[i]);
  }

  // ---- steps that send and fail nothing ----

  predicate NeutralEntry(e: Entry) {
    FailId(e).None? && SentFrame(e).None?
  }

  predicate NeutralLog(before: Log, after: Log) {
    before <= after && forall i :: |before| <= i < |after| ==> NeutralEntry(after[i])
  }

  lemma NeutralCounts(before: Log, after: Log, id: string)
    requires NeutralLog(before, after)
    ensures FailCount(after, id) == FailCount(before, id) && FileFrames(after) == FileFrames(before)
  {
    var more := after[|before|..];
    assert after == before + more;
    FailCountAppend(before, more, id);
    FileFramesAppend(before, more);
    NoFails(more, id);
    NoFrames(more);
  }

  lemma NeutralClean(before: Log, after: Log)
    requires NeutralLog(before, after) && Clean(before)
    ensures Clean(after)
  {
    forall i, j | 0 <= i < j < |after| && FailId(after[i]).Some? && SentFrame(after[j]).Some?
      ensures FrameId(SentFrame(after[j]).value) != FailId(after[i]).value
    {
      assert j < |before|;
      assert after[i] == before[i] && after[j] == before[j];
    }
  }

  /** Only the receiving side and the log changed. */
  lemma NeutralKeeps(x: Transfers, log: Log, x': Transfers, log': Log)
    requires SendsOk(x, log) && x' == x.(receive := x'.receive) && NeutralLog(log, log')
    ensures SendsOk(x', log')
  {
    NeutralClean(log, log');
    NeutralCounts(log, log', "");
    assert Current(x') == Current(x);
    forall id ensures FailsOk(x', log', id) {
      assert FailsOk(x, log, id);
      NeutralCounts(log, log', id);
      SamePlace(x, x', id);
    }
  }

  // ---- steps that leave the line alone ----

  /** Same line, same bookkeeping, nothing sent: only the loop itself moved on. */
  lemma SameLineKeeps(x: Transfers, log: Log, x': Transfers)
    requires SendsOk(x, log) && LoopsOk(x')
    requires x'.history == x.history && x'.returned == x.returned && x'.pendingAck == x.pendingAck
    requires Line(x') == Line(x) && SentOf(Current(x')) == SentOf(Current(x))
    ensures SendsOk(x', log)
  {
    forall id ensures FailsOk(x', log, id) {
      assert FailsOk(x, log, id);
      SamePlace(x, x', id);
    }
  }

  lemma StopKeeps(x: Transfers, log: Log, reason: FailReason)
    requires SendsOk(x, log)
    ensures SendsOk(StopActive(x, reason), log)
  {
    if x.activeSend.Some? {
      var l := x.loops[x.activeSend.value];
      HappensKeepsOk(l.src, Sending(l.job, l.sent), StopCalled(reason));
      var x' := StopActive(x, reason);
      assert x'.loops.Keys == x.loops.Keys;
      SameLineKeeps(x, log, x');
    }
  }

  lemma DrainKeeps(s: S)
    requires Ok(s)
    ensures Ok(BufferLow(s))
  {
    var x' := BufferLow(s).x;
    assert x'.loops.Keys == s.x.loops.Keys;
    if Current(s.x).Some? && Current(s.x).value.Running? {
      var l := Current(s.x).value;
      HappensKeepsOk(l.src, Sending(l.job, l.sent), DrainEvent);
    }
    SameLineKeeps(s.x, s.log, x');
  }

  // ---- failures ----

  lemma FailKeepsClean(log: Log, id: string, reason: FailReason)
    requires Clean(log)
    ensures Clean(log + [Emit(FileFailed(id, Outgoing, reason))])
  {
    var after := log + [Emit(FileFailed(id, Outgoing, reason))];
    forall i, j | 0 <= i < j < |after| && FailId(after[i]).Some? && SentFrame(after[j]).Some?
      ensures FrameId(SentFrame(after[j]).value) != FailId(after[i]).value
    {
      assert j < |log|;
      assert after[i] == log[i] && after[j] == log[j];
    }
  }

  /** The transfer waiting for its ack is reported failed. */
  lemma AckFailKeeps(x: Transfers, log: Log, reason: FailReason)
    requires SendsOk(x, log) && x.pendingAck.Some?
    ensures SendsOk(x.(pendingAck := None), log + [Emit(FileFailed(x.pendingAck.value, Outgoing, reason))])
  {
    var acked := x.pendingAck.value;
    var x' := x.(pendingAck := None);
    var log' := log + [Emit(FileFailed(acked, Outgoing, reason))];
    FailKeepsClean(log, acked, reason);
    OneFail(log, acked, reason, "");
    FullySentIsSettled(x, acked);
    forall id ensures FailsOk(x', log', id) {
      assert FailsOk(x, log, id) && FailsOk(x, log, acked);
      OneFail(log, acked, reason, id);
      SamePlace(x, x', id);
    }
  }

  /** A transfer behind the loop is neither held nor waiting. */
  lemma FullySentIsSettled(x: Transfers, id: string)
    requires QueueOk(x) && FullySent(x, id)
    ensures !Alive(x, id) && id in x.returned
  {
    var k :| 0 <= k < |x.history| && x.history[k].src.id == id && IsWhole(x.history[k]);
    assert Line(x)[k] == Ticketed(id, x.history[k].ticket);
    forall i | |x.history| <= i < |Line(x)| ensures Line(x)[i].id != id {
      LineIdsDistinct(Line(x), x.returned, k, i);
    }
  }

  lemma ForgetAckKeeps(x: Transfers, log: Log)
    requires SendsOk(x, log)
    ensures SendsOk(x.(pendingAck := None), log)
  {
    var x' := x.(pendingAck := None);
    forall id ensures FailsOk(x', log, id) {
      assert FailsOk(x, log, id);
      SamePlace(x, x', id);
    }
  }

  // ---- leaving the queue ----

  function Without(queue: seq<Queued>, k: nat): seq<Queued>
    requires k < |queue|
  {
    queue[..k] + queue[k + 1..]
  }

  /** The line with one element taken out. */
  lemma WithoutKeepsOrder(line: seq<Ticketed>, line': seq<Ticketed>, k: nat, returned: seq<string>)
    requires InOrder(line, returned) && k < |line| && line' == line[..k] + line[k + 1..]
    ensures InOrder(line', returned)
  {
    forall i | 0 <= i < |line'| ensures line'[i] == line[if i < k then i else i + 1] {
    }
  }

  lemma LineWithout(x: Transfers, k: nat)
    requires k < |x.queue|
    ensures var at := |Line(x)| - |x.queue| + k;
            && Line(x.(queue := Without(x.queue, k))) == Line(x)[..at] + Line(x)[at + 1..]
            && at >= |x.history| && Line(x)[at] == Ticketed(x.queue[k].src.id, x.queue[k].ticket)
  {
    var x' := x.(queue := Without(x.queue, k));
    assert Current(x') == Current(x);
    var at := |Line(x)| - |x.queue| + k;
    assert Waiting(x'.queue) == Waiting(x.queue)[..k] + Waiting(x.queue)[k + 1..];
  }

  lemma AliveWithout(x: Transfers, k: nat, id: string)
    requires QueueOk(x) && k < |x.queue|
    ensures Alive(x.(queue := Without(x.queue, k)), id) <==> Alive(x, id) && id != x.queue[k].src.id
    ensures Alive(x, x.queue[k].src.id)
  {
    var x' := x.(queue := Without(x.queue, k));
    var at := |Line(x)| - |x.queue| + k;
    LineWithout(x, k);
    assert Line(x)[at].id == x.queue[k].src.id;
    IdsWithout(Line(x), Line(x'), |x.history|, at, x.returned, id);
  }

  lemma IdsWithout(line: seq<Ticketed>, line': seq<Ticketed>, from: nat, at: nat, returned: seq<string>, id: string)
    requires Distinct(returned) && InOrder(line, returned) && from <= at < |line|
    requires line' == line[..at] + line[at + 1..]
    ensures AppearsFrom(line', from, id) <==> AppearsFrom(line, from, id) && id != line[at].id
  {
    if i :| from <= i < |line'| && line'[i].id == id {
      var j := if i < at then i else i + 1;
      assert line'[i] == line[j];
      if j < at { LineIdsDistinct(line, returned, j, at); } else { LineIdsDistinct(line, returned, at, j); }
    }
    if i :| from <= i < |line| && line[i].id == id && id != line[at].id {
      var j := if i < at then i else i - 1;
      assert line'[j] == line[i];
    }
  }

  /** A waiting transfer leaves the queue, reported failed. */
  lemma UnqueueKeeps(x: Transfers, log: Log, k: nat, reason: FailReason)
    requires SendsOk(x, log) && k < |x.queue|
    ensures SendsOk(x.(queue := Without(x.queue, k)), log + [Emit(FileFailed(x.queue[k].src.id, Outgoing, reason))])
  {
    var x' := x.(queue := Without(x.queue, k));
    var gone := x.queue[k].src.id;
    var log' := log + [Emit(FileFailed(gone, Outgoing, reason))];
    assert Current(x') == Current(x);
    LineWithout(x, k);
    WithoutKeepsOrder(Line(x), Line(x'), |Line(x)| - |x.queue| + k, x.returned);
    FailKeepsClean(log, gone, reason);
    OneFail(log, gone, reason, "");
    forall id ensures FailsOk(x', log', id) {
      UnqueueFails(x, log, k, reason, id);
    }
  }

  lemma UnqueueFails(x: Transfers, log: Log, k: nat, reason: FailReason, id: string)
    requires SendsOk(x, log) && k < |x.queue|
    ensures FailsOk(x.(queue := Without(x.queue, k)), log + [Emit(FileFailed(x.queue[k].src.id, Outgoing, reason))], id)
  {
    var x' := x.(queue := Without(x.queue, k));
    var gone := x.queue[k].src.id;
    assert FailsOk(x, log, id);
    OneFail(log, gone, reason, id);
    AliveWithout(x, k, id);
    assert FullySent(x', id) == FullySent(x, id);
    if FullySent(x, gone) {
      FullySentIsSettled(x, gone);
    }
    var at := |Line(x)| - |x.queue| + k;
    LineWithout(x, k);
    assert x.returned[Line(x)[at].ticket] == gone;
  }

  lemma {:induction false} FailQueuedHead(queue: seq<Queued>)
    requires queue != []
    ensures FailQueued(queue) == [Emit(FileFailed(queue[0].src.id, Outgoing, Disconnected))] + FailQueued(queue[1..])
  {
    if |queue| > 1 {
      FailQueuedHead(queue[..|queue| - 1]);
      assert queue[..|queue| - 1][1..] == queue[1..][..|queue[1..]| - 1];
    }
  }

  lemma UnqueueHeadKeeps(x: Transfers, log: Log)
    requires SendsOk(x, log) && x.queue != []
    ensures SendsOk(x.(queue := x.queue[1..]), log + [Emit(FileFailed(x.queue[0].src.id, Outgoing, Disconnected))])
  {
    UnqueueKeeps(x, log, 0, Disconnected);
    assert Without(x.queue, 0) == x.queue[1..];
  }

  lemma FailQueuedAfterHead(log: Log, queue: seq<Queued>)
    requires queue != []
    ensures log + [Emit(FileFailed(queue[0].src.id, Outgoing, Disconnected))] + FailQueued(queue[1..]) == log + FailQueued(queue)
  {
    FailQueuedHead(queue);
  }

  /** Every waiting transfer is reported failed, in order. */
  lemma {:induction false} DropQueueKeeps(x: Transfers, log: Log)
    requires SendsOk(x, log)
    ensures SendsOk(x.(queue := []), log + FailQueued(x.queue))
    decreases |x.queue|
  {
    if x.queue == [] {
      assert log + FailQueued(x.queue) == log && x.(queue := []) == x;
    } else {
      UnqueueHeadKeeps(x, log);
      FailQueuedAfterHead(log, x.queue);
      DropQueueKeeps(x.(queue := x.queue[1..]), log + [Emit(FileFailed(x.queue[0].src.id, Outgoing, Disconnected))]);
    }
  }

  /** failAllTransfers */
  lemma FailAllKeeps(s: S)
    requires Ok(s)
    ensures Ok(FailAllTransfers(s))
  {
    var r := FailAllTransfers(s);
    var x1 := StopActive(s.x, Disconnected);
    StopKeeps(s.x, s.log, Disconnected);
    var x2 := x1.(pendingAck := None);
    var log2 := s.log + if x1.pendingAck.Some? then [Emit(FileFailed(x1.pendingAck.value, Outgoing, Disconnected))] else [];
    AckOrNothing(x1, s.log, Disconnected);
    DropQueueKeeps(x2, log2);
    var x3 := x2.(queue := []);
    var log3 := log2 + FailQueued(x2.queue);
    assert NeutralLog(log3, r.log);
    NeutralKeeps(x3, log3, r.x, r.log);
  }

  lemma AckOrNothing(x: Transfers, log: Log, reason: FailReason)
    requires SendsOk(x, log)
    ensures SendsOk(x.(pendingAck := None),
                    log + if x.pendingAck.Some? then [Emit(FileFailed(x.pendingAck.value, Outgoing, reason))] else [])
  {
    if x.pendingAck.Some? {
      AckFailKeeps(x, log, reason);
    } else {
      assert log + [] == log && x.(pendingAck := None) == x;
    }
  }

  lemma {:induction false} CancelQueuedWithout(queue: seq<Queued>, id: string) returns (k: nat)
    requires IsQueued(queue, id)
    ensures k < |queue| && queue[k].src.id == id && CancelQueued(queue, id) == Without(queue, k)
  {
    if queue[0].src.id == id {
      return 0;
    }
    assert IsQueued(queue[1..], id) by {
      var i :| 0 <= i < |queue| && queue[i].src.id == id;
      assert queue[1..][i - 1].src.id == id;
    }
    var m := CancelQueuedWithout(queue[1..], id);
    k := m + 1;
    assert [queue[0]] + Without(queue[1..], m) == Without(queue, k);
  }

  lemma CancelInQueueKeeps(s: S, id: string)
    requires Ok(s)
    ensures Ok(CancelInQueue(s, id))
  {
    if IsQueued(s.x.queue, id) {
      var k := CancelQueuedWithout(s.x.queue, id);
      UnqueueKeeps(s.x, s.log, k, Cancelled);
    }
  }

  // ---- a transfer moves behind the loop ----

  /** The first of the line that is not behind the loop now is. */
  lemma AliveBehind(x: Transfers, x': Transfers, b: Block, id: string)
    requires QueueOk(x) && x'.history == x.history + [b] && Line(x') == Line(x)
    ensures Alive(x, b.src.id)
    ensures Alive(x', id) <==> Alive(x, id) && id != b.src.id
    ensures FullySent(x', id) <==> FullySent(x, id) || (id == b.src.id && IsWhole(b))
  {
    var line, n := Line(x), |x.history|;
    assert line[n] == Ticketed(b.src.id, b.ticket) by {
      assert Line(x')[n] == Behind(x'.history)[n];
    }
    forall i | n + 1 <= i < |line| ensures line[i].id != b.src.id {
      LineIdsDistinct(line, x.returned, n, i);
    }
    HistoryGrows(x, x', b, id);
  }

  lemma HistoryGrows(x: Transfers, x': Transfers, b: Block, id: string)
    requires x'.history == x.history + [b]
    ensures FullySent(x', id) <==> FullySent(x, id) || (id == b.src.id && IsWhole(b))
  {
    if FullySent(x, id) {
      var i :| 0 <= i < |x.history| && x.history[i].src.id == id && IsWhole(x.history[i]);
      assert x'.history[i] == x.history[i];
    }
    assert x'.history[|x.history|] == b;
  }

  lemma FlattenAppend(history: seq<Block>, b: Block)
    ensures Flatten(history + [b]) == Flatten(history) + b.sent
  {
    assert (history + [b])[..|history|] == history;
  }

  /** What a move behind the loop leaves as it was. */
  predicate MovedBehind(x: Transfers, x': Transfers, b: Block) {
    && x'.history == x.history + [b] && Line(x') == Line(x) && x'.returned == x.returned
    && b.sent == SentOf(Current(x)) && SentOf(Current(x')) == [] && b.sent <= Script(b.src)
  }

  /** It was not sent to its end, and is reported failed. */
  lemma SettleFailedKeeps(x: Transfers, log: Log, x': Transfers, b: Block, reason: FailReason)
    requires SendsOk(x, log) && LoopsOk(x') && MovedBehind(x, x', b) && !IsWhole(b) && x'.pendingAck == x.pendingAck
    ensures SendsOk(x', log + [Emit(FileFailed(b.src.id, Outgoing, reason))])
  {
    var log' := log + [Emit(FileFailed(b.src.id, Outgoing, reason))];
    FailKeepsClean(log, b.src.id, reason);
    OneFail(log, b.src.id, reason, "");
    FlattenAppend(x.history, b);
    if x.pendingAck.Some? {
      AliveBehind(x, x', b, x.pendingAck.value);
    }
    forall id ensures FailsOk(x', log', id) {
      SettledFails(x, log, x', b, reason, id);
    }
  }

  lemma SettledFails(x: Transfers, log: Log, x': Transfers, b: Block, reason: FailReason, id: string)
    requires SendsOk(x, log) && MovedBehind(x, x', b) && !IsWhole(b) && x'.pendingAck == x.pendingAck
    ensures FailsOk(x', log + [Emit(FileFailed(b.src.id, Outgoing, reason))], id)
  {
    assert FailsOk(x, log, id);
    OneFail(log, b.src.id, reason, id);
    AliveBehind(x, x', b, id);
    if FullySent(x, b.src.id) {
      FullySentIsSettled(x, b.src.id);
    }
    assert Line(x)[|x.history|].id == b.src.id by {
      assert Line(x')[|x.history|] == Behind(x'.history)[|x.history|];
    }
  }

  /** It was sent to its end, and awaits its ack. */
  lemma SettleSentKeeps(x: Transfers, log: Log, x': Transfers, b: Block)
    requires SendsOk(x, log) && LoopsOk(x') && MovedBehind(x, x', b) && IsWhole(b) && x'.pendingAck == Some(b.src.id)
    ensures SendsOk(x', log)
  {
    FlattenAppend(x.history, b);
    AliveBehind(x, x', b, b.src.id);
    forall id ensures FailsOk(x', log, id) {
      assert FailsOk(x, log, id);
      AliveBehind(x, x', b, id);
    }
  }

  // ---- joining the queue ----

  lemma PushKeeps(x: Transfers, log: Log, src: Source)
    requires SendsOk(x, log) && src.id !in x.returned
    ensures SendsOk(x.(queue := x.queue + [Queued(src, |x.returned|)], returned := x.returned + [src.id]), log)
  {
    var x' := x.(queue := x.queue + [Queued(src, |x.returned|)], returned := x.returned + [src.id]);
    assert Current(x') == Current(x);
    LinePushed(x, src);
    PushKeepsOrder(Line(x), x.returned, src.id);
    forall id ensures FailsOk(x', log, id) {
      assert FailsOk(x, log, id);
      AlivePushed(x, x', src, id);
    }
    if x.pendingAck.Some? {
      AlivePushed(x, x', src, x.pendingAck.value);
    }
  }

  lemma LinePushed(x: Transfers, src: Source)
    ensures Line(x.(queue := x.queue + [Queued(src, |x.returned|)], returned := x.returned + [src.id]))
         == Line(x) + [Ticketed(src.id, |x.returned|)]
  {
    var x' := x.(queue := x.queue + [Queued(src, |x.returned|)], returned := x.returned + [src.id]);
    assert Waiting(x'.queue) == Waiting(x.queue) + [Ticketed(src.id, |x.returned|)];
  }

  lemma PushKeepsOrder(line: seq<Ticketed>, returned: seq<string>, id: string)
    requires InOrder(line, returned) && Distinct(returned) && id !in returned
    ensures InOrder(line + [Ticketed(id, |returned|)], returned + [id]) && Distinct(returned + [id])
  {
  }

  lemma AlivePushed(x: Transfers, x': Transfers, src: Source, id: string)
    requires x'.history == x.history && Line(x') == Line(x) + [Ticketed(src.id, |x.returned|)]
    ensures Alive(x', id) <==> Alive(x, id) || id == src.id
    ensures FullySent(x', id) == FullySent(x, id)
  {
    assert Line(x')[|Line(x)|].id == src.id;
    if Alive(x, id) {
      var i :| |x.history| <= i < |Line(x)| && Line(x)[i].id == id;
      assert Line(x')[i].id == id;
    }
    assert FullySent(x, id) ==> exists i :: 0 <= i < |x'.history| && x'.history[i].src.id == id && IsWhole(x'.history[i]);
  }

  // ---- the job sends a frame ----

  lemma FrameKeepsClean(log: Log, e: Entry, id: string)
    requires Clean(log) && FailId(e).None? && FailCount(log, id) == 0
    requires SentFrame(e).Some? ==> FrameId(SentFrame(e).value) == id
    ensures Clean(log + [e])
  {
    var after := log + [e];
    NeverFailed(log, id);
    forall i, j | 0 <= i < j < |after| && FailId(after[i]).Some? && SentFrame(after[j]).Some?
      ensures FrameId(SentFrame(after[j]).value) != FailId(after[i]).value
    {
      assert i < |log| && after[i] == log[i];
      if j < |log| { assert after[j] == log[j]; }
    }
  }

  lemma OneFrame(log: Log, e: Entry, id: string)
    requires FailId(e).None?
    ensures FailCount(log + [e], id) == FailCount(log, id)
    ensures FileFrames(log + [e]) == FileFrames(log) + if SentFrame(e).Some? then [SentFrame(e).value] else []
  {
    assert (log + [e])[..|log|] == log;
  }

  /** The frame of the job that holds the line's head goes out. */
  lemma FrameKeeps(x: Transfers, log: Log, x': Transfers, e: Entry)
    requires SendsOk(x, log) && LoopsOk(x') && FailId(e).None? && SentFrame(e).Some?
    requires Current(x).Some? && Current(x).value.Running? && FrameId(SentFrame(e).value) == Current(x).value.src.id
    requires x'.history == x.history && x'.returned == x.returned && x'.pendingAck == x.pendingAck && Line(x') == Line(x)
    requires SentOf(Current(x')) == SentOf(Current(x)) + [SentFrame(e).value]
    ensures SendsOk(x', log + [e])
  {
    var id := Current(x).value.src.id;
    assert Line(x)[|x.history|] == Ticketed(id, Current(x).value.ticket);
    assert Alive(x, id) && id in x.returned;
    assert FailsOk(x, log, id);
    FrameKeepsClean(log, e, id);
    OneFrame(log, e, "");
    forall other ensures FailsOk(x', log + [e], other) {
      assert FailsOk(x, log, other);
      OneFrame(log, e, other);
      SamePlace(x, x', other);
    }
  }
}
