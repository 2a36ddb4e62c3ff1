/** Two sessions with different fragment secrets, over a channel that may do
    anything: one becomes secure if and only if its own key-confirm comes back to
    it. */
module SecretMismatch {
  import opened Wrappers
  import opened Protocol
  import opened Base64url
  import opened Wire
  import opened FileTransfer
  import opened Session
  import opened SessionSteps
  import opened HandlerSteps
  import opened LoopSteps
  import opened Reachability
  import opened SessionInvariants

  // ---- a session seals only under keys from its own secret ----

  predicate FromSecret(key: Option<Key>, secret: nat) {
    key.Some? ==> key.value.secret == secret
  }

  /** Whatever text was sealed was sealed under this secret. */
  predicate IsOwn(e: Entry, secret: nat) {
    e.SendText? && e.frame.SealedFrame? && e.frame.cipher.Sealed? ==> e.frame.cipher.key.secret == secret
  }

  predicate AllOwn(log: Log, secret: nat) {
    forall i :: 0 <= i < |log| ==> IsOwn(log[i], secret)
  }

  predicate LoopOwn(l: Loop, secret: nat) {
    l.Running? ==> FromSecret(l.ctl, secret)
  }

  predicate Owned(s: S, secret: nat) {
    && s.secret == secret && FromSecret(s.hs.key, secret) && FromSecret(s.tail, secret)
    && FromSecret(SealingKey(s.handler), secret)
    && (forall id :: id in s.x.loops ==> LoopOwn(s.x.loops[id], secret))
    && AllOwn(s.log, secret)
  }

  ghost function OwnedUnder(secret: nat): Property {
    (s: S) => Owned(s, secret)
  }

  lemma WorksKeepsOwned(s: S, s': S, secret: nat)
    requires Owned(s, secret) && (Works(s, s') || Quiet(s, s'))
    ensures Owned(s', secret)
  {
  }

  lemma FailAllKeepsOwned(s: S, secret: nat)
    requires Owned(s, secret)
    ensures Owned(FailAllTransfers(s), secret)
  {
  }

  lemma OwnedIsClosed(secret: nat)
    ensures ClosedUnderHandler(OwnedUnder(secret)) && ClosedUnderSecuring(OwnedUnder(secret))
    ensures ClosedUnderTokens(OwnedUnder(secret))
  {
    forall s, s' | Owned(s, secret) && (Works(s, s') || Quiet(s, s')) ensures Owned(s', secret) {
      WorksKeepsOwned(s, s', secret);
    }
    forall s | Owned(s, secret) ensures Owned(FailAllTransfers(s), secret) {
      FailAllKeepsOwned(s, secret);
    }
    forall s: S, reason | Owned(s, secret) ensures Owned(Stopped(s, reason), secret) {
      StopKeepsOwned(s, reason, secret);
    }
    forall s: S | Owned(s, secret) ensures Owned(BecomeSecure(s), secret) {
      SecuringKeepsOwned(s, secret);
    }
  }

  lemma StopKeepsOwned(s: S, reason: FailReason, secret: nat)
    requires Owned(s, secret)
    ensures Owned(Stopped(s, reason), secret)
  {
  }

  lemma SecuringKeepsOwned(s: S, secret: nat)
    requires Owned(s, secret)
    ensures Owned(BecomeSecure(s), secret)
  {
  }

  function OwnLoops(secret: nat): LoopProperty {
    (l: Loop) => LoopOwn(l, secret)
  }

  function OwnEntries(secret: nat): EntryProperty {
    (e: Entry) => IsOwn(e, secret)
  }

  lemma OwnSurvives(s: S, secret: nat)
    requires Owned(s, secret)
    ensures Survives(s, OwnLoops(secret), AnyQueued(), OwnEntries(secret))
  {
    forall l, buffered | LoopOwn(l, secret) && JobCanRun(l)
      ensures LoopOwn(RanOn(s, l, buffered), secret) && forall e :: e in RanLog(s, l, buffered) ==> IsOwn(e, secret)
    {
      RanOnIsOwn(s, l, buffered, secret);
    }
  }

  lemma RanOnIsOwn(s: S, l: Loop, buffered: int, secret: nat)
    requires Owned(s, secret) && LoopOwn(l, secret) && JobCanRun(l)
    ensures LoopOwn(RanOn(s, l, buffered), secret) && forall e :: e in RanLog(s, l, buffered) ==> IsOwn(e, secret)
  {
  }

  lemma QueueStepKeepsOwned(hash: seq<byte> -> string, s: S, a: Action, secret: nat)
    requires Owned(s, secret) && Enabled(s, a) && IsQueueStep(a)
    ensures Owned(Next(hash, s, a), secret)
  {
    OwnSurvives(s, secret);
    QueueStepKeeps(hash, s, a, OwnLoops(secret), AnyQueued(), OwnEntries(secret));
    QueueStepIsTransfers(hash, s, a);
    LoopsAreOwn(s, Next(hash, s, a), secret);
  }

  lemma LoopsAreOwn(s: S, s': S, secret: nat)
    requires Owned(s, secret) && s' == s.(x := s'.x, log := s'.log)
    requires Loops(s'.x, OwnLoops(secret)) && Logs(s.log, s'.log, OwnEntries(secret))
    ensures Owned(s', secret)
  {
    forall i | 0 <= i < |s'.log| ensures IsOwn(s'.log[i], secret) {
      if i < |s.log| {
        assert s'.log[i] == s.log[i];
      } else {
        assert OwnEntries(secret)(s'.log[i]);
      }
    }
    forall id | id in s'.x.loops ensures LoopOwn(s'.x.loops[id], secret) {
      assert OwnLoops(secret)(s'.x.loops[id]);
    }
  }

  lemma NextKeepsOwned(hash: seq<byte> -> string, s: S, a: Action, secret: nat)
    requires Owned(s, secret) && Enabled(s, a)
    ensures Owned(Next(hash, s, a), secret)
  {
    if IsQueueStep(a) {
      QueueStepKeepsOwned(hash, s, a, secret);
    } else if !IsSendStep(a) {
      OwnedIsClosed(secret);
      StepKeeps(OwnedUnder(secret), hash, s, a);
    }
  }

  // ---- and opens only what it was given ----

  predicate AllIn(cs: seq<Cipher>, given: set<Cipher>) {
    forall i :: 0 <= i < |cs| ==> cs[i] in given
  }

  /** Every ciphertext the session holds was given to it. */
  predicate Held(s: S, given: set<Cipher>) {
    && AllIn(s.hs.buffer, given)
    && match s.handler
       case Busy(Decrypting(_, cipher, rest)) => cipher in given && AllIn(rest, given)
       case Busy(FinishingFile(_, _, rest)) => AllIn(rest, given)
       case _ => true
  }

  ghost function HeldFrom(given: set<Cipher>): Property {
    (s: S) => Held(s, given)
  }

  lemma HeldIsClosed(given: set<Cipher>)
    ensures Closed(HeldFrom(given)) && ClosedUnderTokens(HeldFrom(given))
  {
  }

  lemma TextKeepsHeld(s: S, frame: TextFrame, given: set<Cipher>)
    requires Held(s, given) && s.handler == Idle
    requires frame.SealedFrame? ==> frame.cipher in given
    ensures Held(HandleText(s, frame), given)
  {
    HeldIsClosed(given);
    match frame {
      case OtherVersion => FailHandshakeKeeps(HeldFrom(given), s, VersionMismatch);
      case MalformedText => FailHandshakeKeeps(HeldFrom(given), s, KeyConfirmFailed);
      case _ =>
    }
  }

  lemma NextBufferedKeepsHeld(s: S, rest: seq<Cipher>, given: set<Cipher>)
    requires Held(s, given) && AllIn(rest, given)
    ensures Held(NextBuffered(s, rest), given)
  {
  }

  lemma FailureKeepsHeld(s: S, reason: EndReason, given: set<Cipher>)
    requires Held(s, given)
    ensures Held(FailHandshake(s.(handler := Idle), reason), given) && Held(FinishSession(s.(handler := Idle), reason, true), given)
  {
    HeldIsClosed(given);
    HandlerFails(HeldFrom(given), s, reason);
  }

  lemma ConfirmKeepsHeld(s: S, t: Transcript, given: set<Cipher>)
    requires Held(s, given) && s.handler == Idle
    ensures Held(HandleConfirm(s, t), given)
  {
    FailureKeepsHeld(s, KeyConfirmFailed, given);
  }

  lemma PayloadKeepsHeld(s: S, p: Message, now: int, given: set<Cipher>)
    requires Held(s, given) && s.handler == Idle && !p.FileDone?
    ensures Held(HandlePayload(s, p, now), given)
  {
    match p {
      case KeyConfirm(t) => ConfirmKeepsHeld(s, t, given);
      case End => FailureKeepsHeld(s, ByPeer, given);
      case Offer(o) => OfferIsTransfers(s, o);
      case FileCancel(id, reason) => FileCancelIsTransfers(s, id, reason);
      case _ => NewsIsTransfers(s, p, now);
    }
  }

  lemma DecryptKeepsHeld(s: S, key: Key, cipher: Cipher, rest: seq<Cipher>, now: int, given: set<Cipher>)
    requires Held(s, given) && s.handler == Busy(Decrypting(key, cipher, rest))
    ensures Held(AfterDecrypt(s, key, cipher, rest, now), given)
  {
    var p := Decrypt(key, cipher);
    var s1 := s.(handler := Idle);
    if p.None? {
      FailureKeepsHeld(s, KeyConfirmFailed, given);
      NextBufferedKeepsHeld(if s1.hs.verified then s1 else FailHandshake(s1, KeyConfirmFailed), rest, given);
    } else if p.value.FileDone? {
      NextBufferedKeepsHeld(s1, rest, given);
    } else {
      PayloadKeepsHeld(s1, p.value, now, given);
      NextBufferedKeepsHeld(HandlePayload(s1, p.value, now), rest, given);
    }
  }

  lemma SealingKeepsHeld(s: S, key: Key, t: Transcript, given: set<Cipher>)
    requires Held(s, given)
    ensures Held(AfterSealing(s, key, t), given)
  {
    FailureKeepsHeld(s, KeyConfirmFailed, given);
    var s1 := s.(handler := Idle, log := s.log + [SendText(SealedFrame(Sealed(key, KeyConfirm(t))))],
                 hs := s.hs.(buffer := []));
    NextBufferedKeepsHeld(s1, s.hs.buffer, given);
  }

  lemma ExportKeepsHeld(s: S, mine: nat, given: set<Cipher>)
    requires Held(s, given)
    ensures Held(AfterExport(s, mine), given)
  {
    FailureKeepsHeld(s.(hs := s.hs.(myPub := Some(mine))), SignalingGone, given);
  }

  lemma FinishFileKeepsHeld(hash: seq<byte> -> string, s: S, job: ReceiveJob, sha256: string, rest: seq<Cipher>, given: set<Cipher>)
    requires Held(s, given) && s.handler == Busy(FinishingFile(job, sha256, rest))
    ensures Held(AfterFinish(hash, s, job, sha256, rest), given)
  {
    var file := FileTransfer.Finish(job.r, hash, sha256);
    var s1 := Emits(s.(handler := Idle), if file.Some? then FileComplete(job.r.id, file.value)
                                         else FileFailed(job.r.id, Incoming, Failed));
    NextBufferedKeepsHeld(s1, rest, given);
  }

  lemma ChunkKeepsHeld(s: S, job: ReceiveJob, frame: Binary, given: set<Cipher>)
    requires Held(s, given)
    ensures Held(AfterChunk(s, job, frame), given)
  {
    if frame.OtherBinaryVersion? {
      FailureKeepsHeld(s, VersionMismatch, given);
    } else {
      HeldIsClosed(given);
      ChunkIsQuiet(s.(handler := Idle), job, frame);
      QuietKeeps(HeldFrom(given), s.(handler := Idle), AfterChunk(s, job, frame));
    }
  }

  lemma HandlerKeepsHeld(hash: seq<byte> -> string, s: S, priv: nat, now: int, given: set<Cipher>)
    requires Held(s, given) && s.handler.Busy?
    ensures Held(ResumeHandler(hash, s, priv, now), given)
  {
    match s.handler.aw {
      case Exporting(mine) => ExportKeepsHeld(s, mine, given);
      case Importing(_) => FailureKeepsHeld(s, KeyConfirmFailed, given);
      case HashingTranscript(t) => FailureKeepsHeld(s.(hs := s.hs.(expected := Some(t))), KeyConfirmFailed, given);
      case SealingConfirm(key, t) => SealingKeepsHeld(s, key, t, given);
      case Decrypting(key, cipher, rest) => DecryptKeepsHeld(s, key, cipher, rest, now, given);
      case FinishingFile(job, sha256, rest) => FinishFileKeepsHeld(hash, s, job, sha256, rest, given);
      case AcceptingChunk(job, frame) => ChunkKeepsHeld(s, job, frame, given);
      case _ =>
    }
  }

  /** The ciphertext a step hands to the session. */
  function HandedIn(a: Action): set<Cipher> {
    if DeliversSealed(a) then {a.event.frame.cipher} else {}
  }

  lemma EventKeepsHeld(s: S, e: TransportEvent, now: int, given: set<Cipher>)
    requires Held(s, given) && Enabled(s, Deliver(e, now)) && HandedIn(Deliver(e, now)) <= given
    ensures Held(HandleEvent(s, e, now), given)
  {
    HeldIsClosed(given);
    if TouchesTokens(e) {
      TokenStepKeeps(HeldFrom(given), s, e, now);
    } else if e.DataText? {
      TextKeepsHeld(s, e.frame, given);
    } else if !e.DataBinary? {
      EventKeeps(HeldFrom(given), s, e, now);
    }
  }

  lemma NextKeepsHeld(hash: seq<byte> -> string, s: S, a: Action, given: set<Cipher>)
    requires Held(s, given) && Enabled(s, a) && HandedIn(a) <= given
    ensures Held(Next(hash, s, a), given)
  {
    if a.Deliver? {
      EventKeepsHeld(s, a.event, a.now, given);
    } else if a.HandlerRuns? {
      HandlerKeepsHeld(hash, s, a.priv, a.now, given);
    } else if IsSendStep(a) {
      SendStepSecuresNothing(hash, s, a);
    } else {
      HeldIsClosed(given);
      PlainStepKeeps(HeldFrom(given), hash, s, a);
    }
  }

  // ---- two sessions ----

  /** `toA` and `toB`: every ciphertext the channel handed to each so far. */
  datatype Pair = Pair(a: S, b: S, toA: set<Cipher>, toB: set<Cipher>)

  datatype PairStep = AStep(action: Action) | BStep(action: Action)

  predicate Sent(s: S, c: Cipher) {
    SendText(SealedFrame(c)) in s.log
  }

  /** The channel may lose, repeat, reorder, inject and hand a session its own
      frames; only what was sealed under a key has to come from one of the two. */
  predicate CanStep(p: Pair, st: PairStep) {
    && Enabled(if st.AStep? then p.a else p.b, st.action)
    && forall c :: c in HandedIn(st.action) && c.Sealed? ==> Sent(p.a, c) || Sent(p.b, c)
  }

  function PairNext(hash: seq<byte> -> string, p: Pair, st: PairStep): Pair
    requires CanStep(p, st)
  {
    if st.AStep? then p.(a := Next(hash, p.a, st.action), toA := p.toA + HandedIn(st.action))
    else p.(b := Next(hash, p.b, st.action), toB := p.toB + HandedIn(st.action))
  }

  predicate IsPairRun(hash: seq<byte> -> string, p: Pair, steps: seq<PairStep>)
    decreases |steps|
  {
    steps == [] || (CanStep(p, steps[0]) && IsPairRun(hash, PairNext(hash, p, steps[0]), steps[1..]))
  }

  function PairRun(hash: seq<byte> -> string, p: Pair, steps: seq<PairStep>): Pair
    requires IsPairRun(hash, p, steps)
    decreases |steps|
  {
    if steps == [] then p else PairRun(hash, PairNext(hash, p, steps[0]), steps[1..])
  }

  // ---- the invariant ----

  /** A key-confirm the session sealed itself was handed back to it. */
  predicate HandedBack(s: S, given: set<Cipher>) {
    exists c :: c in given && c.Sealed? && c.payload.KeyConfirm? && Sent(s, c)
  }

  predicate Channelled(s: S, other: S, given: set<Cipher>) {
    forall c :: c in given && c.Sealed? ==> Sent(s, c) || Sent(other, c)
  }

  predicate EndOk(s: S, other: S, given: set<Cipher>) {
    && Inv(s) && Owned(s, s.secret) && Held(s, given) && Channelled(s, other, given)
    && (s.status == Secure ==> HandedBack(s, given))
  }

  predicate PairOk(p: Pair) {
    EndOk(p.a, p.b, p.toA) && EndOk(p.b, p.a, p.toB) && p.a.secret != p.b.secret
  }

  lemma OthersAreForeign(s: S, c: Cipher, secret: nat)
    requires Owned(s, secret) && c.Sealed? && c.key.secret != secret
    ensures !Sent(s, c)
  {
  }

  /** The step makes the session open its own key-confirm. */
  predicate OpensOwnConfirm(s: S, a: Action) {
    a.HandlerRuns? && FrameConfirms(s) && Sent(s, s.handler.aw.cipher)
  }

  /** A session not yet secure becomes so exactly by such a step. */
  lemma SecuresIffOpensOwn(hash: seq<byte> -> string, s: S, other: S, given: set<Cipher>, a: Action)
    requires EndOk(s, other, given) && Owned(other, other.secret) && s.secret != other.secret && Enabled(s, a)
    ensures s.status != Secure ==> (Next(hash, s, a).status == Secure <==> OpensOwnConfirm(s, a))
    ensures OpensOwnConfirm(s, a) ==> HandedBack(s, given)
  {
    if s.status != Secure && Next(hash, s, a).status == Secure {
      SecureOnlyByConfirm(hash, s, a);
      if !Sent(s, s.handler.aw.cipher) {
        OthersAreForeign(other, s.handler.aw.cipher, other.secret);
      }
    }
    if OpensOwnConfirm(s, a) {
      ConfirmedIsSecure(hash, s, a.priv, a.now);
      assert s.handler.aw.cipher in given;
    }
  }

  lemma ConfirmedIsSecure(hash: seq<byte> -> string, s: S, priv: nat, now: int)
    requires Inv(s) && FrameConfirms(s)
    ensures ResumeHandler(hash, s, priv, now).status == Secure
  {
  }

  lemma StaysSent(hash: seq<byte> -> string, s: S, a: Action, c: Cipher)
    requires Enabled(s, a) && Sent(s, c)
    ensures Sent(Next(hash, s, a), c)
  {
    LogGrows(hash, s, a);
    var i :| 0 <= i < |s.log| && s.log[i] == SendText(SealedFrame(c));
    assert Next(hash, s, a).log[i] == s.log[i];
  }

  lemma EndStepOk(hash: seq<byte> -> string, s: S, other: S, given: set<Cipher>, a: Action)
    requires EndOk(s, other, given) && Owned(other, other.secret) && s.secret != other.secret && Enabled(s, a)
    requires forall c :: c in HandedIn(a) && c.Sealed? ==> Sent(s, c) || Sent(other, c)
    ensures var s' := Next(hash, s, a); EndOk(s', other, given + HandedIn(a)) && s'.secret == s.secret
  {
    var s', given' := Next(hash, s, a), given + HandedIn(a);
    NextKeepsInv(hash, s, a);
    NextKeepsOwned(hash, s, a, s.secret);
    GivenMore(s, given, given');
    NextKeepsHeld(hash, s, a, given');
    forall c | c in given' && c.Sealed? ensures Sent(s', c) || Sent(other, c) {
      if Sent(s, c) { StaysSent(hash, s, a, c); }
    }
    if s'.status == Secure {
      SecuresIffOpensOwn(hash, s, other, given, a);
      var c :| c in given && c.Sealed? && c.payload.KeyConfirm? && Sent(s, c);
      StaysSent(hash, s, a, c);
    }
  }

  lemma GivenMore(s: S, given: set<Cipher>, given': set<Cipher>)
    requires Held(s, given) && given <= given'
    ensures Held(s, given')
  {
  }

  lemma OtherStaysOk(hash: seq<byte> -> string, s: S, other: S, given: set<Cipher>, a: Action)
    requires EndOk(other, s, given) && Enabled(s, a)
    ensures EndOk(other, Next(hash, s, a), given)
  {
    forall c | c in given && c.Sealed? ensures Sent(other, c) || Sent(Next(hash, s, a), c) {
      if Sent(s, c) { StaysSent(hash, s, a, c); }
    }
  }

  lemma PairStepOk(hash: seq<byte> -> string, p: Pair, st: PairStep)
    requires PairOk(p) && CanStep(p, st)
    ensures PairOk(PairNext(hash, p, st))
  {
    if st.AStep? {
      EndStepOk(hash, p.a, p.b, p.toA, st.action);
      OtherStaysOk(hash, p.a, p.b, p.toB, st.action);
    } else {
      EndStepOk(hash, p.b, p.a, p.toB, st.action);
      OtherStaysOk(hash, p.b, p.a, p.toA, st.action);
    }
  }

  lemma {:induction false} PairRunOk(hash: seq<byte> -> string, p: Pair, steps: seq<PairStep>)
    requires PairOk(p) && IsPairRun(hash, p, steps)
    ensures PairOk(PairRun(hash, p, steps))
    decreases |steps|
  {
    if steps != [] {
      PairStepOk(hash, p, steps[0]);
      PairRunOk(hash, PairNext(hash, p, steps[0]), steps[1..]);
    }
  }

  ghost predicate IsNew(s: S) {
    exists token :: s == Fresh(s.secret, s.inviteWindowMs, s.graceDurationMs, token)
  }

  /** Two new sessions with different fragment secrets. */
  ghost predicate Mismatched(p: Pair) {
    IsNew(p.a) && IsNew(p.b) && p.a.secret != p.b.secret && p.toA == {} && p.toB == {}
  }

  lemma NewIsOk(p: Pair)
    requires Mismatched(p)
    ensures PairOk(p) && p.a.status != Secure && p.b.status != Secure
  {
    NewEndOk(p.a, p.b);
    NewEndOk(p.b, p.a);
  }

  lemma NewEndOk(s: S, other: S)
    requires IsNew(s)
    ensures EndOk(s, other, {}) && s.status == Connecting
  {
    var token :| s == Fresh(s.secret, s.inviteWindowMs, s.graceDurationMs, token);
    FreshInv(s.secret, s.inviteWindowMs, s.graceDurationMs, token);
  }

  /** Different secrets, over every run with end(), drops, timeouts, rejoins and
      transfers, whatever the channel loses, repeats, reorders, injects or hands
      back: neither session is ever secure unless a key-confirm it sealed itself
      was handed back to it. */
  lemma SecureOnlyIfHandedBack(hash: seq<byte> -> string, p: Pair, steps: seq<PairStep>)
    requires Mismatched(p) && IsPairRun(hash, p, steps)
    ensures var r := PairRun(hash, p, steps);
            && (r.a.status == Secure ==> HandedBack(r.a, r.toA))
            && (r.b.status == Secure ==> HandedBack(r.b, r.toB))
  {
    NewIsOk(p);
    PairRunOk(hash, p, steps);
  }

  /** At some point of the run one of the two is secure. */
  predicate EverSecure(hash: seq<byte> -> string, p: Pair, steps: seq<PairStep>)
    requires IsPairRun(hash, p, steps)
    decreases |steps|
  {
    || p.a.status == Secure || p.b.status == Secure
    || (steps != [] && EverSecure(hash, PairNext(hash, p, steps[0]), steps[1..]))
  }

  /** At some point of the run one of the two opens its own key-confirm. */
  predicate EverOpensOwn(hash: seq<byte> -> string, p: Pair, steps: seq<PairStep>)
    requires IsPairRun(hash, p, steps)
    decreases |steps|
  {
    && steps != []
    && (|| OpensOwnConfirm(if steps[0].AStep? then p.a else p.b, steps[0].action)
        || EverOpensOwn(hash, PairNext(hash, p, steps[0]), steps[1..]))
  }

  lemma {:induction false} EverSecureIff(hash: seq<byte> -> string, p: Pair, steps: seq<PairStep>)
    requires PairOk(p) && IsPairRun(hash, p, steps)
    ensures EverSecure(hash, p, steps) <==>
            p.a.status == Secure || p.b.status == Secure || EverOpensOwn(hash, p, steps)
    decreases |steps|
  {
    if steps != [] && p.a.status != Secure && p.b.status != Secure {
      var st := steps[0];
      PairStepOk(hash, p, st);
      if st.AStep? {
        SecuresIffOpensOwn(hash, p.a, p.b, p.toA, st.action);
      } else {
        SecuresIffOpensOwn(hash, p.b, p.a, p.toB, st.action);
      }
      EverSecureIff(hash, PairNext(hash, p, st), steps[1..]);
    }
  }

  /** Exactly: a run of two sessions with different secrets makes one of them
      secure if and only if one of them opens, at some point of it, the key-confirm
      it had sealed itself. */
  lemma DifferentSecretsSecureIffReflected(hash: seq<byte> -> string, p: Pair, steps: seq<PairStep>)
    requires Mismatched(p) && IsPairRun(hash, p, steps)
    ensures EverSecure(hash, p, steps) <==> EverOpensOwn(hash, p, steps)
  {
    NewIsOk(p);
    EverSecureIff(hash, p, steps);
  }

  /** A session that awaits confirmation is made secure, by the next two steps, by
      exactly one of all ciphertexts the pair ever sealed: its own key-confirm. */
  lemma HandedConfirmDecides(hash: seq<byte> -> string, p: Pair, c: Cipher, priv: nat, now: int)
    requires PairOk(p) && AwaitsConfirm(p.a) && (Sent(p.a, c) || Sent(p.b, c))
    ensures var st := AStep(Deliver(DataText(SealedFrame(c)), now));
            && CanStep(p, st) && CanStep(PairNext(hash, p, st), AStep(HandlerRuns(priv, now)))
            && var r := PairNext(hash, PairNext(hash, p, st), AStep(HandlerRuns(priv, now)));
               r.a.status == Secure <==> c == OwnConfirm(p.a)
  {
    TakesUpCipher(p.a, c, now);
    PairStepOk(hash, p, AStep(Deliver(DataText(SealedFrame(c)), now)));
    OpensOnlyOwnConfirm(hash, p.a, c, priv, now);
  }

  lemma TakesUpCipher(s: S, c: Cipher, now: int)
    requires AwaitsConfirm(s)
    ensures HandleEvent(s, DataText(SealedFrame(c)), now) == s.(handler := Busy(Decrypting(s.hs.key.value, c, [])))
  {
  }

  lemma OpensOnlyOwnConfirm(hash: seq<byte> -> string, s: S, c: Cipher, priv: nat, now: int)
    requires AwaitsConfirm(s) && Inv(s.(handler := Busy(Decrypting(s.hs.key.value, c, []))))
    ensures var s1 := s.(handler := Busy(Decrypting(s.hs.key.value, c, [])));
            ResumeHandler(hash, s1, priv, now).status == Secure <==> c == OwnConfirm(s)
  {
    var s1 := s.(handler := Busy(Decrypting(s.hs.key.value, c, [])));
    if c == OwnConfirm(s) {
      OwnConfirmSecures(s, now);
    } else if Next(hash, s1, HandlerRuns(priv, now)).status == Secure {
      SecureOnlyByConfirm(hash, s1, HandlerRuns(priv, now));
    }
  }

  // ---- and a channel that does hand it back ----

  ghost predicate PairReaches(hash: seq<byte> -> string, p: Pair, q: Pair) {
    exists steps :: IsPairRun(hash, p, steps) && PairRun(hash, p, steps) == q
  }

  function StepOf(isA: bool, a: Action): PairStep {
    if isA then AStep(a) else BStep(a)
  }

  function With(p: Pair, isA: bool, s: S): Pair {
    if isA then p.(a := s) else p.(b := s)
  }

  function Lifted(isA: bool, actions: seq<Action>): seq<PairStep> {
    if actions == [] then [] else [StepOf(isA, actions[0])] + Lifted(isA, actions[1..])
  }

  function NoCiphers(): Permission {
    (a: Action) => !DeliversSealed(a)
  }

  lemma PairCons(hash: seq<byte> -> string, p: Pair, st: PairStep, rest: seq<PairStep>)
    requires CanStep(p, st) && IsPairRun(hash, PairNext(hash, p, st), rest)
    ensures IsPairRun(hash, p, [st] + rest) && PairRun(hash, p, [st] + rest) == PairRun(hash, PairNext(hash, p, st), rest)
  {
    assert ([st] + rest)[1..] == rest;
  }

  /** What one session does without ciphertexts it can do in any pair. */
  lemma {:induction false} RunLifts(hash: seq<byte> -> string, p: Pair, isA: bool, actions: seq<Action>)
    requires IsRun(hash, if isA then p.a else p.b, actions) && Permitted(NoCiphers(), actions)
    ensures IsPairRun(hash, p, Lifted(isA, actions))
    ensures PairRun(hash, p, Lifted(isA, actions)) == With(p, isA, Run(hash, if isA then p.a else p.b, actions))
    decreases |actions|
  {
    if actions != [] {
      var st := StepOf(isA, actions[0]);
      var p1 := PairNext(hash, p, st);
      FirstStepLifts(hash, p, isA, actions[0]);
      RunLifts(hash, p1, isA, actions[1..]);
      PairCons(hash, p, st, Lifted(isA, actions[1..]));
    }
  }

  lemma FirstStepLifts(hash: seq<byte> -> string, p: Pair, isA: bool, a: Action)
    requires Enabled(if isA then p.a else p.b, a) && !DeliversSealed(a)
    ensures CanStep(p, StepOf(isA, a))
    ensures PairNext(hash, p, StepOf(isA, a)) == With(p, isA, Next(hash, if isA then p.a else p.b, a))
  {
  }

  lemma {:induction false} PairRunAppend(hash: seq<byte> -> string, p: Pair, x: seq<PairStep>, y: seq<PairStep>)
    requires IsPairRun(hash, p, x) && IsPairRun(hash, PairRun(hash, p, x), y)
    ensures IsPairRun(hash, p, x + y) && PairRun(hash, p, x + y) == PairRun(hash, PairRun(hash, p, x), y)
    decreases |x|
  {
    if x == [] {
      assert x + y == y;
    } else {
      PairRunAppend(hash, PairNext(hash, p, x[0]), x[1..], y);
      HeadThenRest(x, y);
      PairCons(hash, p, x[0], x[1..] + y);
    }
  }

  lemma HeadThenRest(x: seq<PairStep>, y: seq<PairStep>)
    requires x != []
    ensures [x[0]] + (x[1..] + y) == x + y
  {
  }

  lemma PairReachesOn(hash: seq<byte> -> string, p: Pair, q: Pair, r: Pair)
    requires PairReaches(hash, p, q) && PairReaches(hash, q, r)
    ensures PairReaches(hash, p, r)
  {
    var x :| IsPairRun(hash, p, x) && PairRun(hash, p, x) == q;
    var y :| IsPairRun(hash, q, y) && PairRun(hash, q, y) == r;
    PairRunAppend(hash, p, x, y);
    assert IsPairRun(hash, p, x + y);
  }

  lemma PairReachesNext(hash: seq<byte> -> string, p: Pair, q: Pair, st: PairStep)
    requires PairReaches(hash, p, q) && CanStep(q, st)
    ensures PairReaches(hash, p, PairNext(hash, q, st))
  {
    PairCons(hash, q, st, []);
    assert IsPairRun(hash, q, [st] + []);
    PairReachesOn(hash, p, q, PairNext(hash, q, st));
  }

  lemma PairReachesAlone(hash: seq<byte> -> string, p: Pair, q: Pair, isA: bool, s: S)
    requires PairReaches(hash, p, q) && Leads(hash, NoCiphers(), if isA then q.a else q.b, s)
    ensures PairReaches(hash, p, With(q, isA, s))
  {
    var s0 := if isA then q.a else q.b;
    var actions :| IsRun(hash, s0, actions) && Permitted(NoCiphers(), actions) && Run(hash, s0, actions) == s;
    RunLifts(hash, q, isA, actions);
    PairReachesOn(hash, p, q, With(q, isA, s));
  }

  /** A run from two new sessions in which it happens: both channels open, `a` is
      given the public key that `b` sent, and then its own key-confirm. */
  lemma ReflectionSecures(hash: seq<byte> -> string) returns (p: Pair, r: Pair)
    ensures Mismatched(p) && PairReaches(hash, p, r)
    ensures r.a.status == Secure && HandedBack(r.a, r.toA) && r.b.status == Securing
  {
    var q;
    p, q := BothOpen(hash);
    var s := Exchanged(q.a, 2);
    ExchangedReached(hash, NoCiphers(), q.a, 2);
    PairReachesAlone(hash, p, q, true, s);
    r := Reflected(hash, p, q.(a := s));
  }

  lemma BothOpen(hash: seq<byte> -> string) returns (p: Pair, q: Pair)
    ensures Mismatched(p) && PairReaches(hash, p, q) && KeyIsSent(q.a) && KeyIsSent(q.b) && q.b.hs.keyPair == Some(2)
  {
    p := Pair(Fresh(7, 600_000, 120_000, None), Fresh(8, 600_000, 120_000, None), {}, {});
    assert IsPairRun(hash, p, []);
    var b := FreshOpens(hash, NoCiphers(), 8, 2);
    PairReachesAlone(hash, p, p, false, b);
    var a := FreshOpens(hash, NoCiphers(), 7, 1);
    PairReachesAlone(hash, p, p.(b := b), true, a);
    q := p.(b := b, a := a);
  }

  lemma Reflected(hash: seq<byte> -> string, p: Pair, q: Pair) returns (r: Pair)
    requires Mismatched(p) && PairReaches(hash, p, q) && AwaitsConfirm(q.a) && Sent(q.a, OwnConfirm(q.a))
    ensures PairReaches(hash, p, r) && r.a.status == Secure && HandedBack(r.a, r.toA) && r.b == q.b
  {
    NewIsOk(p);
    var steps :| IsPairRun(hash, p, steps) && PairRun(hash, p, steps) == q;
    PairRunOk(hash, p, steps);
    HandedConfirmDecides(hash, q, OwnConfirm(q.a), 0, 0);
    var st := AStep(Deliver(DataText(SealedFrame(OwnConfirm(q.a))), 0));
    PairReachesNext(hash, p, q, st);
    PairReachesNext(hash, p, PairNext(hash, q, st), AStep(HandlerRuns(0, 0)));
    r := PairNext(hash, PairNext(hash, q, st), AStep(HandlerRuns(0, 0)));
    var more :| IsPairRun(hash, p, more) && PairRun(hash, p, more) == r;
    SecureOnlyIfHandedBack(hash, p, more);
  }
}
