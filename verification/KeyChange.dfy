/** What losing the peer does to transfers: which of them can still put anything on
    a later channel. */
module KeyChange {
  import opened Wrappers
  import opened Protocol
  import opened Base64url
  import opened Wire
  import opened FileTransfer
  import opened Session
  import opened SessionSteps
  import opened HandlerSteps
  import opened LoopSteps
  import opened Reachability
  import opened SessionInvariants
  import opened SendDiscipline
  import opened SendTheorems

  // ---- while unconfirmed, the active send is stopped or has sent nothing ----

  predicate Calm(s: S) {
    !s.hs.verified ==> ActiveStopped(s.x)
  }

  predicate CalmLoop(l: Loop) {
    l.Running? ==> l.job.stopped.Some? || l.job.at.Hashing? || !Suspended(l.job)
  }

  ghost function IsCalm(): Property {
    (s: S) => Calm(s)
  }

  lemma CalmIsClosed()
    ensures ClosedUnderHandler(IsCalm()) && ClosedUnderSecuring(IsCalm()) && ClosedUnderTokens(IsCalm())
  {
    forall s: S | Calm(s) ensures Calm(FailAllTransfers(s)) {
      FailAllStops(s);
    }
    forall s: S, reason | Calm(s) ensures Calm(Stopped(s, reason)) {
      StoppingIsCalm(s, reason);
    }
  }

  lemma StoppingIsCalm(s: S, reason: FailReason)
    ensures ActiveStopped(Stopped(s, reason).x)
  {
  }

  function CalmLoops(): LoopProperty {
    (l: Loop) => CalmLoop(l)
  }

  lemma CalmSurvives(s: S)
    requires !CanSend(s)
    ensures Survives(s, CalmLoops(), AnyQueued(), AnyEntry())
  {
    forall l, buffered | CalmLoop(l) && JobCanRun(l) ensures CalmLoop(RanOn(s, l, buffered)) {
    }
  }

  lemma CalmPerLoop(x: Transfers)
    requires LoopsOk(x)
    ensures ActiveStopped(x) <==> Loops(x, CalmLoops())
  {
    forall id | id in x.loops ensures x.nextLoop == id + 1 && Current(x) == Some(x.loops[id]) {
      RunningIsCurrent(x, id);
    }
    if ActiveStopped(x) {
      forall id | id in x.loops ensures CalmLoop(x.loops[id]) {
      }
    }
  }

  lemma QueueStepKeepsCalm(hash: seq<byte> -> string, s: S, a: Action)
    requires Sound(s) && Enabled(s, a) && IsQueueStep(a)
    ensures Calm(Next(hash, s, a))
  {
    QueueStepIsTransfers(hash, s, a);
    if !s.hs.verified {
      CalmSurvives(s);
      CalmPerLoop(s.x);
      QueueStepKeeps(hash, s, a, CalmLoops(), AnyQueued(), AnyEntry());
      NextKeeps(hash, s, a);
      CalmPerLoop(Next(hash, s, a).x);
    }
  }

  // ---- only files with content are ever taken up ----

  predicate NonEmpty(l: Loop) {
    l.Exiting? || l.src.bytes != []
  }

  predicate Filled(x: Transfers) {
    && (forall id :: id in x.loops ==> NonEmpty(x.loops[id]))
    && (forall i :: 0 <= i < |x.queue| ==> x.queue[i].src.bytes != [])
  }

  ghost function IsFilled(): Property {
    (s: S) => Filled(s.x)
  }

  lemma FilledIsClosed()
    ensures ClosedUnderHandler(IsFilled()) && ClosedUnderSecuring(IsFilled()) && ClosedUnderTokens(IsFilled())
  {
    forall s: S, s' | Filled(s.x) && (Quiet(s, s') || Works(s, s')) ensures Filled(s'.x) {
    }
    forall s: S | Filled(s.x) ensures Filled(FailAllTransfers(s).x) {
      StopKeepsFilled(s.x, Disconnected);
    }
    forall s: S, reason | Filled(s.x) ensures Filled(Stopped(s, reason).x) {
      StopKeepsFilled(s.x, reason);
    }
    forall s: S | Filled(s.x) ensures Filled(BecomeSecure(s).x) {
      SecuringKeepsTransfers(s);
    }
  }

  lemma StopKeepsFilled(x: Transfers, reason: FailReason)
    requires Filled(x)
    ensures Filled(StopActive(x, reason))
  {
  }

  function FilledLoops(): LoopProperty {
    (l: Loop) => NonEmpty(l)
  }

  function FilledQueue(): QueuedProperty {
    (u: Queued) => u.src.bytes != []
  }

  lemma FilledSurvives(s: S)
    ensures Survives(s, FilledLoops(), FilledQueue(), AnyEntry())
  {
    forall l, buffered | NonEmpty(l) && JobCanRun(l) ensures NonEmpty(RanOn(s, l, buffered)) {
    }
  }

  lemma QueueStepKeepsFilled(hash: seq<byte> -> string, s: S, a: Action)
    requires Filled(s.x) && Enabled(s, a) && IsQueueStep(a)
    ensures Filled(Next(hash, s, a).x)
  {
    FilledSurvives(s);
    QueueStepKeeps(hash, s, a, FilledLoops(), FilledQueue(), AnyEntry());
    FilledFromKept(Next(hash, s, a).x);
  }

  lemma FilledFromKept(x: Transfers)
    requires Loops(x, FilledLoops()) && Queue(x, FilledQueue())
    ensures Filled(x)
  {
    forall id | id in x.loops ensures NonEmpty(x.loops[id]) {
      assert FilledLoops()(x.loops[id]);
    }
    forall i | 0 <= i < |x.queue| ensures x.queue[i].src.bytes != [] {
      assert FilledQueue()(x.queue[i]);
    }
  }

  lemma NextKeepsFilled(hash: seq<byte> -> string, s: S, a: Action)
    requires Filled(s.x) && Enabled(s, a)
    ensures Filled(Next(hash, s, a).x)
  {
    if IsQueueStep(a) {
      QueueStepKeepsFilled(hash, s, a);
    } else if !IsSendStep(a) {
      FilledIsClosed();
      StepKeeps(IsFilled(), hash, s, a);
    }
  }

  // ---- every reachable session ----

  ghost predicate Sound(s: S) {
    Inv(s) && Ok(s) && Calm(s) && Filled(s.x)
  }

  lemma NextKeepsCalm(hash: seq<byte> -> string, s: S, a: Action)
    requires Sound(s) && Enabled(s, a)
    ensures Calm(Next(hash, s, a))
  {
    if IsQueueStep(a) {
      QueueStepKeepsCalm(hash, s, a);
    } else if !IsSendStep(a) {
      CalmIsClosed();
      StepKeeps(IsCalm(), hash, s, a);
    }
  }

  lemma NextKeepsSound(hash: seq<byte> -> string, s: S, a: Action)
    requires Sound(s) && Enabled(s, a)
    ensures Sound(Next(hash, s, a))
  {
    NextKeepsInv(hash, s, a);
    NextKeeps(hash, s, a);
    NextKeepsCalm(hash, s, a);
    NextKeepsFilled(hash, s, a);
  }

  lemma FreshSound(secret: nat, inviteWindowMs: int, graceDurationMs: int, token: Option<Token>)
    ensures Sound(Fresh(secret, inviteWindowMs, graceDurationMs, token))
  {
    FreshInv(secret, inviteWindowMs, graceDurationMs, token);
    FreshOk(secret, inviteWindowMs, graceDurationMs, token);
  }

  lemma {:induction false} RunKeepsSound(hash: seq<byte> -> string, s: S, actions: seq<Action>)
    requires Sound(s) && IsRun(hash, s, actions)
    ensures Sound(Run(hash, s, actions))
    decreases |actions|
  {
    if actions != [] {
      NextKeepsSound(hash, s, actions[0]);
      RunKeepsSound(hash, Next(hash, s, actions[0]), actions[1..]);
    }
  }

  /** Every session any run leads to from a sound one is sound. */
  lemma ReachableIsSound(hash: seq<byte> -> string, s: S, t: S)
    requires Sound(s) && Reaches(hash, s, t)
    ensures Sound(t)
  {
    var actions :| IsRun(hash, s, actions) && Run(hash, s, actions) == t;
    RunKeepsSound(hash, s, actions);
  }

  // ---- which transfers outlive the key ----

  /** Still going to send chunks, if it can. */
  predicate IsLive(l: Loop) {
    l.Reading? || (l.Running? && Suspended(l.job) && l.job.stopped.None?)
  }

  predicate LoopOutside(l: Loop, ids: seq<string>) {
    IsLive(l) ==> l.src.id !in ids
  }

  /** None of these transfers is waiting or live. */
  predicate AllOver(x: Transfers, ids: seq<string>) {
    && (forall id :: id in x.loops ==> LoopOutside(x.loops[id], ids))
    && (forall i :: 0 <= i < |x.queue| ==> x.queue[i].src.id !in ids)
    && forall i :: 0 <= i < |ids| ==> ids[i] in x.returned
  }

  ghost function Over(ids: seq<string>): Property {
    (s: S) => AllOver(s.x, ids)
  }

  lemma OverIsClosed(ids: seq<string>)
    ensures ClosedUnderHandler(Over(ids)) && ClosedUnderSecuring(Over(ids)) && ClosedUnderTokens(Over(ids))
  {
    forall s: S, s' | AllOver(s.x, ids) && (Quiet(s, s') || Works(s, s')) ensures AllOver(s'.x, ids) {
    }
    forall s: S | AllOver(s.x, ids) ensures AllOver(FailAllTransfers(s).x, ids) {
      StopKeepsOver(s.x, Disconnected, ids);
    }
    forall s: S, reason | AllOver(s.x, ids) ensures AllOver(Stopped(s, reason).x, ids) {
      StopKeepsOver(s.x, reason, ids);
    }
    forall s: S | AllOver(s.x, ids) ensures AllOver(BecomeSecure(s).x, ids) {
      SecuringKeepsTransfers(s);
    }
  }

  lemma StopKeepsOver(x: Transfers, reason: FailReason, ids: seq<string>)
    requires AllOver(x, ids)
    ensures AllOver(StopActive(x, reason), ids)
  {
  }

  lemma SecuringKeepsTransfers(s: S)
    ensures BecomeSecure(s).x == s.x && s.log <= BecomeSecure(s).log
    ensures forall i :: |s.log| <= i < |BecomeSecure(s).log| ==> BecomeSecure(s).log[i].Emit?
  {
  }

  function OutsideLoops(ids: seq<string>): LoopProperty {
    (l: Loop) => LoopOutside(l, ids)
  }

  function OutsideQueue(ids: seq<string>): QueuedProperty {
    (u: Queued) => u.src.id !in ids
  }

  predicate IsChunkOf(e: Entry, ids: seq<string>) {
    e.SendBinary? && e.chunk.SealedChunk? && e.chunk.id in ids
  }

  function NoChunks(ids: seq<string>): EntryProperty {
    (e: Entry) => !IsChunkOf(e, ids)
  }

  /** A stopped job sends no chunk, and stays stopped. */
  lemma RanOnOutside(s: S, l: Loop, buffered: int, ids: seq<string>)
    requires LoopOutside(l, ids) && JobCanRun(l)
    ensures LoopOutside(RanOn(s, l, buffered), ids)
    ensures forall e :: e in RanLog(s, l, buffered) ==> !IsChunkOf(e, ids)
  {
  }

  lemma OutsideSurvives(s: S, ids: seq<string>)
    ensures Survives(s, OutsideLoops(ids), OutsideQueue(ids), NoChunks(ids))
  {
    forall l, buffered | LoopOutside(l, ids) && JobCanRun(l)
      ensures LoopOutside(RanOn(s, l, buffered), ids) && forall e :: e in RanLog(s, l, buffered) ==> !IsChunkOf(e, ids)
    {
      RanOnOutside(s, l, buffered, ids);
    }
  }

  lemma QueueStepKeepsOver(hash: seq<byte> -> string, s: S, a: Action, ids: seq<string>)
    requires AllOver(s.x, ids) && Enabled(s, a) && IsQueueStep(a)
    ensures AllOver(Next(hash, s, a).x, ids) && Logs(s.log, Next(hash, s, a).log, NoChunks(ids))
  {
    OutsideSurvives(s, ids);
    QueueStepKeeps(hash, s, a, OutsideLoops(ids), OutsideQueue(ids), NoChunks(ids));
    OverFromKept(s.x, Next(hash, s, a).x, ids);
  }

  lemma OverFromKept(x: Transfers, x': Transfers, ids: seq<string>)
    requires AllOver(x, ids) && x.returned <= x'.returned
    requires Loops(x', OutsideLoops(ids)) && Queue(x', OutsideQueue(ids))
    ensures AllOver(x', ids)
  {
    forall id | id in x'.loops ensures LoopOutside(x'.loops[id], ids) {
      assert OutsideLoops(ids)(x'.loops[id]);
    }
    forall i | 0 <= i < |x'.queue| ensures x'.queue[i].src.id !in ids {
      assert OutsideQueue(ids)(x'.queue[i]);
    }
  }

  /** No step sends a chunk of a transfer that is over. */
  lemma NextKeepsOver(hash: seq<byte> -> string, s: S, a: Action, ids: seq<string>)
    requires AllOver(s.x, ids) && Enabled(s, a)
    ensures AllOver(Next(hash, s, a).x, ids) && Logs(s.log, Next(hash, s, a).log, NoChunks(ids))
  {
    if IsQueueStep(a) {
      QueueStepKeepsOver(hash, s, a, ids);
    } else {
      OtherStepSendsNoChunk(hash, s, a, ids);
      if !IsSendStep(a) {
        OverIsClosed(ids);
        StepKeeps(Over(ids), hash, s, a);
      }
    }
  }

  ghost function Chunkless(log: Log, ids: seq<string>): Property {
    (s: S) => Logs(log, s.log, NoChunks(ids))
  }

  lemma ChunklessIsClosed(log: Log, ids: seq<string>)
    ensures ClosedUnderHandler(Chunkless(log, ids)) && ClosedUnderSecuring(Chunkless(log, ids))
    ensures ClosedUnderTokens(Chunkless(log, ids))
  {
    forall s: S, s' | Logs(log, s.log, NoChunks(ids)) && (Quiet(s, s') || Works(s, s'))
      ensures Logs(log, s'.log, NoChunks(ids))
    {
      TextsOnly(log, s.log, s'.log, ids);
    }
    forall s: S | Logs(log, s.log, NoChunks(ids)) ensures Logs(log, FailAllTransfers(s).log, NoChunks(ids)) {
      FailAllIsSilent(s);
      TextsOnly(log, s.log, FailAllTransfers(s).log, ids);
    }
    forall s: S | Logs(log, s.log, NoChunks(ids)) ensures Logs(log, BecomeSecure(s).log, NoChunks(ids)) {
      SecuringKeepsTransfers(s);
      TextsOnly(log, s.log, BecomeSecure(s).log, ids);
    }
    forall s: S, reason | s.x.pendingAck.Some? && Logs(log, s.log, NoChunks(ids))
      ensures Logs(log, AckFailed(s, reason).log, NoChunks(ids))
    {
      TextsOnly(log, s.log, AckFailed(s, reason).log, ids);
    }
  }

  lemma FailAllIsSilent(s: S)
    ensures s.log <= FailAllTransfers(s).log
    ensures forall i :: |s.log| <= i < |FailAllTransfers(s).log| ==> FailAllTransfers(s).log[i].Emit?
  {
  }

  lemma TextsOnly(log: Log, before: Log, after: Log, ids: seq<string>)
    requires Logs(log, before, NoChunks(ids)) && before <= after
    requires forall i :: |before| <= i < |after| ==> !after[i].SendBinary?
    ensures Logs(log, after, NoChunks(ids))
  {
    forall i | |log| <= i < |after| ensures NoChunks(ids)(after[i]) {
      if i < |before| { assert after[i] == before[i]; }
    }
  }

  lemma AppSendsNoChunk(hash: seq<byte> -> string, s: S, a: Action, ids: seq<string>)
    requires Enabled(s, a) && (a.AppSends? || a.EndTailRuns?)
    ensures Logs(s.log, Next(hash, s, a).log, NoChunks(ids))
  {
  }

  lemma OtherStepSendsNoChunk(hash: seq<byte> -> string, s: S, a: Action, ids: seq<string>)
    requires Enabled(s, a) && !IsQueueStep(a)
    ensures Logs(s.log, Next(hash, s, a).log, NoChunks(ids))
  {
    if IsSendStep(a) {
      AppSendsNoChunk(hash, s, a, ids);
    } else {
      ChunklessIsClosed(s.log, ids);
      StepKeeps(Chunkless(s.log, ids), hash, s, a);
    }
  }

  /** A chunk of one of these transfers went out since `before`. */
  predicate ChunkSince(before: Log, after: Log, ids: seq<string>) {
    exists i :: |before| <= i < |after| && IsChunkOf(after[i], ids)
  }

  lemma {:induction false} OverSendsNoChunk(hash: seq<byte> -> string, s: S, actions: seq<Action>, ids: seq<string>)
    requires AllOver(s.x, ids) && IsRun(hash, s, actions)
    ensures Logs(s.log, Run(hash, s, actions).log, NoChunks(ids))
    decreases |actions|
  {
    if actions != [] {
      NextKeepsOver(hash, s, actions[0], ids);
      OverSendsNoChunk(hash, Next(hash, s, actions[0]), actions[1..], ids);
      LogsChain(s.log, Next(hash, s, actions[0]).log, Run(hash, s, actions).log, NoChunks(ids));
    }
  }

  lemma LogsChain(a: Log, b: Log, c: Log, p: EntryProperty)
    requires Logs(a, b, p) && Logs(b, c, p)
    ensures Logs(a, c, p)
  {
  }

  predicate IsReading(x: Transfers) {
    exists id :: id in x.loops && x.loops[id].Reading?
  }

  /** Failing all transfers ends every one of them, except a file still being read. */
  lemma FailAllEndsAllButReading(s: S)
    requires Ok(s) && !IsReading(s.x)
    ensures AllOver(FailAllTransfers(s).x, s.x.returned)
  {
    var x := FailAllTransfers(s).x;
    forall id | id in x.loops ensures !IsLive(x.loops[id]) {
      RunningIsCurrent(s.x, id);
    }
  }

  // ---- leaving "secure" ----

  /** The events that leave "secure" for a state in which it can be reached again:
      the peer or the channel is gone, the signaling connection is, or a new channel
      opened. */
  predicate Rekeys(e: TransportEvent) {
    e.PeerWent? || e.DataLost? || e.SignalingDown? || e.DataOpened?
  }

  lemma PayloadSecureOrEnds(s: S, p: Message, now: int)
    requires s.status == Secure && !p.FileDone?
    ensures HandlePayload(s, p, now).status in {Secure, Ended}
  {
    match p {
      case Offer(o) => OfferIsTransfers(s, o);
      case FileCancel(id, reason) => FileCancelIsTransfers(s, id, reason);
      case KeyConfirm(_) =>
      case End =>
      case _ => NewsIsTransfers(s, p, now);
    }
  }

  lemma HandlerSecureOrEnds(hash: seq<byte> -> string, s: S, priv: nat, now: int)
    requires Inv(s) && s.status == Secure && s.handler.Busy?
    ensures ResumeHandler(hash, s, priv, now).status in {Secure, Ended}
  {
    match s.handler.aw {
      case Decrypting(key, cipher, rest) =>
        var p := Decrypt(key, cipher);
        if p.Some? && !p.value.FileDone? {
          PayloadSecureOrEnds(s.(handler := Idle), p.value, now);
        }
      case FinishingFile(_, _, _) =>
      case AcceptingChunk(job, frame) =>
        if !frame.OtherBinaryVersion? {
          ChunkIsTransfers(s.(handler := Idle), job, frame);
        }
      case _ => assert false;
    }
  }

  lemma RoomEventSecureOrEnds(s: S, e: TransportEvent, now: int)
    requires s.status == Secure && (e.RoomJoined? || e.PeerCame? || e.ServerSays? || e.RoomGone?)
    ensures HandleEvent(s, e, now).status in {Secure, Ended}
  {
  }

  lemma TextSecureOrEnds(s: S, frame: TextFrame)
    requires s.status == Secure
    ensures HandleText(s, frame).status in {Secure, Ended}
  {
  }

  lemma EventSecureOrEnds(s: S, e: TransportEvent, now: int)
    requires s.status == Secure && !Rekeys(e) && !e.RoomCreated?
    ensures HandleEvent(s, e, now).status in {Secure, Ended}
  {
    if e.DataText? {
      TextSecureOrEnds(s, e.frame);
    } else if !e.DataBinary? {
      RoomEventSecureOrEnds(s, e, now);
    }
  }

  lemma NothingPendingWhileSecure(s: S)
    requires Inv(s) && s.status == Secure
    ensures s.timers.pending == map[]
  {
    assert forall id :: id !in s.timers.pending;
  }

  /** A secure session stays so or ends, except for those four events. */
  lemma SecureOrEnds(hash: seq<byte> -> string, s: S, a: Action)
    requires Inv(s) && s.status == Secure && Enabled(s, a)
    requires a.Deliver? ==> !Rekeys(a.event)
    ensures Next(hash, s, a).status in {Secure, Ended}
  {
    NothingPendingWhileSecure(s);
    if a.Deliver? {
      EventSecureOrEnds(s, a.event, a.now);
    } else if a.HandlerRuns? {
      HandlerSecureOrEnds(hash, s, a.priv, a.now);
    } else if IsQueueStep(a) {
      QueueStepIsTransfers(hash, s, a);
    }
  }

  /** They fail all transfers, and the session can go on from there. */
  predicate CameFrom(r: S, s: S) {
    && r.x == FailAllTransfers(s).x && r.status in {Reconnecting, Securing} && !r.closed && r.secret == s.secret
    && (r.handler == Idle || r.handler == Busy(Generating))
  }

  lemma RekeyFailsAll(s: S, e: TransportEvent, now: int)
    requires Inv(s) && s.status == Secure && s.handler == Idle && Rekeys(e)
    ensures CameFrom(HandleEvent(s, e, now), s)
  {
    if e.DataOpened? {
      OpeningFailsAll(s);
    } else {
      GraceFailsAll(s, e.SignalingDown?, now);
    }
  }

  lemma GraceFailsAll(s: S, needsRejoin: bool, now: int)
    requires Inv(s) && s.status == Secure && s.handler == Idle
    ensures CameFrom(EnterGrace(s, needsRejoin, now), s)
  {
  }

  lemma OpeningFailsAll(s: S)
    requires Inv(s) && s.status == Secure && s.handler == Idle
    ensures CameFrom(BeginHandshake(SetStatus(s.(timers := ClearGrace(s.timers)), Securing)), s)
  {
    FailAllLooksAtTransfers(s, SetStatus(s.(timers := ClearGrace(s.timers)), Securing));
  }

  lemma FailAllLooksAtTransfers(s: S, t: S)
    requires s.x == t.x
    ensures FailAllTransfers(s).x == FailAllTransfers(t).x
  {
  }

  // ---- an ended session ----

  /** Nothing but texts and reports. */
  function NoBinary(): EntryProperty {
    (e: Entry) => !e.SendBinary?
  }

  lemma CalmSendsNoBinary(s: S)
    requires !CanSend(s)
    ensures Survives(s, CalmLoops(), AnyQueued(), NoBinary())
  {
    forall l, buffered | CalmLoop(l) && JobCanRun(l)
      ensures CalmLoop(RanOn(s, l, buffered)) && forall e :: e in RanLog(s, l, buffered) ==> !e.SendBinary?
    {
    }
  }

  lemma EndedStepSendsNoChunk(hash: seq<byte> -> string, s: S, a: Action, ids: seq<string>)
    requires Sound(s) && s.status == Ended && Enabled(s, a)
    ensures Next(hash, s, a).status == Ended && Logs(s.log, Next(hash, s, a).log, NoChunks(ids))
  {
    NextKeepsInv(hash, s, a);
    if IsQueueStep(a) {
      CalmPerLoop(s.x);
      CalmSendsNoBinary(s);
      QueueStepKeeps(hash, s, a, CalmLoops(), AnyQueued(), NoBinary());
      var s' := Next(hash, s, a);
      assert forall i :: |s.log| <= i < |s'.log| ==> NoBinary()(s'.log[i]);
    } else {
      OtherStepSendsNoChunk(hash, s, a, ids);
    }
  }

  /** No run of an ended session sends a chunk. */
  lemma {:induction false} EndedSendsNoChunk(hash: seq<byte> -> string, s: S, actions: seq<Action>, ids: seq<string>)
    requires Sound(s) && s.status == Ended && IsRun(hash, s, actions)
    ensures Logs(s.log, Run(hash, s, actions).log, NoChunks(ids))
    decreases |actions|
  {
    if actions != [] {
      var s1 := Next(hash, s, actions[0]);
      EndedStepSendsNoChunk(hash, s, actions[0], ids);
      NextKeepsSound(hash, s, actions[0]);
      EndedSendsNoChunk(hash, s1, actions[1..], ids);
      LogsChain(s.log, s1.log, Run(hash, s, actions).log, NoChunks(ids));
    }
  }

  lemma EndedOutlivesNothing(hash: seq<byte> -> string, s: S, ids: seq<string>)
    requires Sound(s) && s.status == Ended
    ensures forall t :: Reaches(hash, s, t) ==> !ChunkSince(s.log, t.log, ids)
  {
    forall t | Reaches(hash, s, t) ensures !ChunkSince(s.log, t.log, ids) {
      var actions :| IsRun(hash, s, actions) && Run(hash, s, actions) == t;
      EndedSendsNoChunk(hash, s, actions, ids);
      assert forall i :: |s.log| <= i < |t.log| ==> NoChunks(ids)(t.log[i]);
    }
  }

  // ---- a file still being read ----

  predicate HoldsLoop(s: S, id: nat, l: Loop) {
    id in s.x.loops && s.x.loops[id] == l && s.x.activeSend.None?
  }

  /** The channel comes up, and whatever handshake was under way gets to where the
      next can begin. */
  lemma Settles(hash: seq<byte> -> string, s: S, id: nat, l: Loop, mine: nat) returns (t: S)
    requires HoldsLoop(s, id, l) && s.status in {Reconnecting, Securing} && !s.closed
    requires s.handler == Idle || s.handler == Busy(Generating)
    ensures Leads(hash, Anything(), s, t) && HoldsLoop(t, id, l) && t.secret == s.secret
    ensures t.status != Ended && t.handler == Idle && t.dataOpen
  {
    t := s.(dataOpen := true);
    LeadsBy(hash, Anything(), s, ChannelIs(true));
    if s.handler != Idle {
      var s1 := t;
      t := AfterExport(s1.(hs := s1.hs.(keyPair := Some(mine)), handler := Busy(Exporting(mine))), mine);
      LeadsNext(hash, Anything(), s, s1, HandlerRuns(mine, 0));
      LeadsNext(hash, Anything(), s, Next(hash, s1, HandlerRuns(mine, 0)), HandlerRuns(0, 0));
    }
  }

  lemma OpeningKeepsReading(s: S, mine: nat, id: nat, l: Loop)
    requires HoldsLoop(s, id, l) && s.status != Ended && s.handler == Idle && s.dataOpen
    ensures HoldsLoop(Opening(s, mine), id, l)
  {
  }

  /** The exchange goes through again, with fresh keys. */
  lemma SecuresAgain(hash: seq<byte> -> string, s: S, id: nat, l: Loop, n: nat) returns (t: S)
    requires HoldsLoop(s, id, l) && s.status != Ended && s.handler == Idle && s.dataOpen
    ensures Leads(hash, Anything(), s, t) && HoldsLoop(t, id, l) && CanSend(t)
    ensures t.hs.key == Some(Key(s.secret, Shared(n, n + 1)))
  {
    var o := Opening(s, n);
    OpeningReached(hash, Anything(), s, n);
    OpeningKeepsReading(s, n, id, l);
    ExchangedReached(hash, Anything(), o, n + 1);
    LeadsOn(hash, Anything(), s, o, Exchanged(o, n + 1));
    t := Secured(Exchanged(o, n + 1));
    SecuredReached(hash, Anything(), Exchanged(o, n + 1));
    LeadsOn(hash, Anything(), s, Exchanged(o, n + 1), t);
  }

  /** The drain loop runs on. */
  function Ticks(id: nat): Action {
    LoopRunsOn(id, true, 0)
  }

  /** The file is read and hashed, offered under the new key, and its first chunk
      sent under the old one. */
  lemma OffersThenSends(hash: seq<byte> -> string, s: S, id: nat, l: Loop) returns (t: S)
    requires HoldsLoop(s, id, l) && l.Reading? && l.src.bytes != [] && CanSend(s)
    ensures Leads(hash, Anything(), s, t) && t.status == Secure && t.hs == s.hs
    ensures var offer := SendText(SealedFrame(Sealed(s.hs.key.value, Offer(OfferFor(l.src)))));
            && |t.log| > |s.log| + 1 && s.log <= t.log && t.log[|s.log|] == offer
            && t.log[|s.log| + 1].SendBinary? && t.log[|s.log| + 1].chunk.SealedChunk?
            && t.log[|s.log| + 1].chunk.key == l.key && t.log[|s.log| + 1].chunk.id == l.src.id
  {
    var u := ReadsAndHashes(hash, s, id, l);
    t := Next(hash, u, Ticks(id));
    LeadsNext(hash, Anything(), s, u, Ticks(id));
    var v := Next(hash, t, Ticks(id));
    FirstFrames(hash, s, u, id, l);
    LeadsNext(hash, Anything(), s, t, Ticks(id));
    t := v;
  }

  /** The job that has hashed its file and is encrypting its offer. */
  function OfferingLoop(l: Loop, key: Option<Key>): Loop
    requires l.Reading?
  {
    Running(l.src, l.key, l.ticket, Job(Offering, None, false), key, [])
  }

  lemma ReadsAndHashes(hash: seq<byte> -> string, s: S, id: nat, l: Loop) returns (u: S)
    requires HoldsLoop(s, id, l) && l.Reading? && CanSend(s)
    ensures Leads(hash, Anything(), s, u) && u == s.(x := u.x) && id in u.x.loops && u.x.loops[id] == OfferingLoop(l, s.hs.key)
    ensures u.x.activeSend == Some(id)
  {
    var s1 := s.(x := PutLoop(s.x, id, Running(l.src, l.key, l.ticket, STARTED, None, [])).(activeSend := Some(id)));
    LeadsBy(hash, Anything(), s, Ticks(id));
    LeadsNext(hash, Anything(), s, s1, Ticks(id));
    u := Next(hash, s1, Ticks(id));
    HashedOffers(s1, id, l);
  }

  lemma HashedOffers(s: S, id: nat, l: Loop)
    requires l.Reading? && id in s.x.loops && s.x.loops[id] == Running(l.src, l.key, l.ticket, STARTED, None, []) && CanSend(s)
    ensures var u := JobRunsOn(s, id, 0);
            && u == s.(x := u.x) && id in u.x.loops && u.x.loops[id] == OfferingLoop(l, s.hs.key)
            && u.x.activeSend == s.x.activeSend
  {
    assert s.log + [] == s.log;
  }

  lemma FirstFrames(hash: seq<byte> -> string, s: S, u: S, id: nat, l: Loop)
    requires l.Reading? && l.src.bytes != [] && CanSend(s) && u == s.(x := u.x)
    requires id in u.x.loops && u.x.loops[id] == OfferingLoop(l, s.hs.key)
    ensures LoopCanRun(u, id) && LoopCanRun(LoopRuns(u, id, true, 0), id)
    ensures var t := LoopRuns(LoopRuns(u, id, true, 0), id, true, 0);
            && |t.log| > |s.log| + 1 && s.log <= t.log && t.status == Secure && t.hs == s.hs
            && t.log[|s.log|] == SendText(SealedFrame(Sealed(s.hs.key.value, Offer(OfferFor(l.src)))))
            && t.log[|s.log| + 1].SendBinary? && t.log[|s.log| + 1].chunk.SealedChunk?
            && t.log[|s.log| + 1].chunk.key == l.key && t.log[|s.log| + 1].chunk.id == l.src.id
  {
  }

  /** Leaving "secure" does not stop a transfer whose file is still being read, if the
      session goes on: it survives, and on the next channel sends its offer under the
      new key and its chunks under the dead one. */
  lemma ReadingOutlivesItsKey(hash: seq<byte> -> string, s: S, id: nat, e: TransportEvent, now: int) returns (t: S)
    requires Sound(s) && s.status == Secure && s.handler == Idle && Rekeys(e)
    requires id in s.x.loops && s.x.loops[id].Reading?
    ensures var r := HandleEvent(s, e, now);
            && Reaches(hash, r, t) && t.status == Secure && t.hs.key.Some?
            && ChunkSince(r.log, t.log, [s.x.loops[id].src.id])
    ensures var l := s.x.loops[id];
            && t.hs.key != Some(l.key)
            && exists i :: && 0 <= i < |t.log| - 1
                           && t.log[i] == SendText(SealedFrame(Sealed(t.hs.key.value, Offer(OfferFor(l.src)))))
                           && t.log[i + 1].SendBinary? && t.log[i + 1].chunk.SealedChunk?
                           && t.log[i + 1].chunk.key == l.key && t.log[i + 1].chunk.id == l.src.id
  {
    var l := s.x.loops[id];
    var n := l.key.shared.lo + l.key.shared.hi + 1;
    var r := HandleEvent(s, e, now);
    RunningIsCurrent(s.x, id);
    RekeyFailsAll(s, e, now);
    assert HoldsLoop(r, id, l);
    var r1 := Settles(hash, r, id, l, n);
    var u := SecuresAgain(hash, r1, id, l, n);
    LeadsOn(hash, Anything(), r, r1, u);
    t := OffersThenSends(hash, u, id, l);
    LeadsOn(hash, Anything(), r, u, t);
    LeadsReaches(hash, Anything(), r, t);
    LogGrowsTo(hash, r, u);
    assert IsChunkOf(t.log[|u.log| + 1], [l.src.id]);
  }

  lemma LogGrowsTo(hash: seq<byte> -> string, s: S, t: S)
    requires Leads(hash, Anything(), s, t)
    ensures s.log <= t.log
  {
    var actions :| IsRun(hash, s, actions) && Permitted(Anything(), actions) && Run(hash, s, actions) == t;
    RunGrowsLog(hash, s, actions);
  }

  /** And it is the only one, whatever step leaves "secure": afterwards some run still
      sends a chunk of a transfer that sendFile had accepted before, if and only if
      the session goes on and a file was being read at that moment. */
  lemma ChunksOutliveKeyIffReading(hash: seq<byte> -> string, s: S, a: Action)
    requires Sound(s) && s.status == Secure && Enabled(s, a) && Next(hash, s, a).status != Secure
    ensures var r := Next(hash, s, a);
            (exists t :: Reaches(hash, r, t) && ChunkSince(r.log, t.log, s.x.returned))
            <==> r.status != Ended && IsReading(s.x)
  {
    var r := Next(hash, s, a);
    if r.status == Ended {
      NextKeepsSound(hash, s, a);
      EndedOutlivesNothing(hash, r, s.x.returned);
    } else {
      if !a.Deliver? || !Rekeys(a.event) {
        SecureOrEnds(hash, s, a);
      }
      RekeyedChunksIff(hash, s, a.event, a.now);
    }
  }

  lemma RekeyedChunksIff(hash: seq<byte> -> string, s: S, e: TransportEvent, now: int)
    requires Sound(s) && s.status == Secure && s.handler == Idle && Rekeys(e)
    ensures var r := HandleEvent(s, e, now);
            (exists t :: Reaches(hash, r, t) && ChunkSince(r.log, t.log, s.x.returned)) <==> IsReading(s.x)
  {
    var r := HandleEvent(s, e, now);
    if IsReading(s.x) {
      var id :| id in s.x.loops && s.x.loops[id].Reading?;
      var t := ReadingOutlivesItsKey(hash, s, id, e, now);
      HeldWasReturned(s.x, id);
      var i :| |r.log| <= i < |t.log| && IsChunkOf(t.log[i], [s.x.loops[id].src.id]);
      assert IsChunkOf(t.log[i], s.x.returned);
    } else {
      RekeyFailsAll(s, e, now);
      NoneOutlives(hash, s, r);
    }
  }

  lemma HeldWasReturned(x: Transfers, id: nat)
    requires LoopsOk(x) && QueueOk(x) && id in x.loops && !x.loops[id].Exiting?
    ensures x.loops[id].src.id in x.returned
  {
    RunningIsCurrent(x, id);
    assert Line(x)[|x.history|] == Ticketed(x.loops[id].src.id, x.loops[id].ticket);
  }

  lemma NoneOutlives(hash: seq<byte> -> string, s: S, r: S)
    requires Sound(s) && !IsReading(s.x) && r.x == FailAllTransfers(s).x
    ensures forall t :: Reaches(hash, r, t) ==> !ChunkSince(r.log, t.log, s.x.returned)
  {
    FailAllEndsAllButReading(s);
    forall t | Reaches(hash, r, t) ensures !ChunkSince(r.log, t.log, s.x.returned) {
      var actions :| IsRun(hash, r, actions) && Run(hash, r, actions) == t;
      OverSendsNoChunk(hash, r, actions, s.x.returned);
      assert forall i :: |r.log| <= i < |t.log| ==> NoChunks(s.x.returned)(t.log[i]);
    }
  }
}
