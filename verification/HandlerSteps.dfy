/** What the event handler does to a session from each of its awaits. A property
    that survives quiet bookkeeping, failing transfers, handshake progress, and
    what a peer's file control frames do to a send, survives the step; unless the
    step confirms the handshake it need not survive becoming secure, and unless the
    step takes in part of a file it need not survive that. */
module HandlerSteps {
  import opened Wrappers
  import opened Base64url
  import opened Wire
  import opened FileTransfer
  import opened Session
  import opened SessionSteps

  /** The key the handler is about to seal a key-confirm under. */
  function SealingKey(h: Handler): Option<Key> {
    if h.Busy? && h.aw.SealingConfirm? then Some(h.aw.key) else None
  }

  predicate IsHandshakeEntry(e: Entry, key: Option<Key>) {
    match e
    case SendText(PubFrame(_)) => true
    case SendText(SealedFrame(Sealed(k, KeyConfirm(_)))) => key == Some(k)
    case _ => false
  }

  /** The handler moved on: handshake state, its own place and the confirm timer
      may differ, a public key or, under the key held for it, a key-confirm may have
      gone out. A new key comes from the session's own secret. */
  predicate Works(s: S, s': S) {
    && s'.secret == s.secret && s'.token == s.token && s'.retriesLeft == s.retriesLeft
    && s'.status == s.status && s'.tail == s.tail && s'.x == s.x.(receive := s'.x.receive)
    && (s.hs.verified ==> s'.hs.verified)
    && (s'.hs.key.Some? ==> s'.hs.key == s.hs.key || s'.hs.key.value.secret == s.secret)
    && (SealingKey(s'.handler).Some? ==> SealingKey(s'.handler) in {SealingKey(s.handler), s'.hs.key})
    && s.log <= s'.log
    && forall i :: |s.log| <= i < |s'.log| ==> IsQuietEntry(s'.log[i]) || IsHandshakeEntry(s'.log[i], SealingKey(s.handler))
  }

  /** The handler is finishing a file or taking a chunk. */
  predicate Receiving(h: Handler) {
    h.Busy? && (h.aw.FinishingFile? || h.aw.AcceptingChunk?)
  }

  /** It moved on and transfers are left alone altogether. */
  predicate Progresses(s: S, s': S) {
    && Works(s, s') && s'.x == s.x && SaysNoReceive(s.log, s'.log)
    && (s'.handler == s.handler || !Receiving(s'.handler))
  }

  function Stopped(s: S, reason: FailReason): S {
    s.(x := StopActive(s.x, reason))
  }

  function AckForgotten(s: S): S {
    s.(x := s.x.(pendingAck := None))
  }

  function AckFailed(s: S, reason: FailReason): S
    requires s.x.pendingAck.Some?
  {
    Emits(AckForgotten(s), FileFailed(s.x.pendingAck.value, Outgoing, reason))
  }

  ghost predicate ClosedUnderProgress(inv: Property) {
    && Closed(inv)
    && (forall s, s' {:trigger Progresses(s, s')} :: inv(s) && Progresses(s, s') ==> inv(s'))
    && (forall s, reason {:trigger Stopped(s, reason)} :: inv(s) ==> inv(Stopped(s, reason)))
    && (forall s {:trigger AckForgotten(s)} :: inv(s) ==> inv(AckForgotten(s)))
    && (forall s: S, reason {:trigger AckFailed(s, reason)} :: s.x.pendingAck.Some? && inv(s) ==> inv(AckFailed(s, reason)))
  }

  /** It also survives what the arrival of a file does. */
  ghost predicate ClosedUnderHandler(inv: Property) {
    && ClosedUnderProgress(inv) && ClosedUnderReceives(inv)
    && (forall s, s' {:trigger Works(s, s')} :: inv(s) && Works(s, s') ==> inv(s'))
  }

  ghost predicate ClosedUnderSecuring(inv: Property) {
    forall s: S {:trigger BecomeSecure(s)} :: inv(s) ==> inv(BecomeSecure(s))
  }

  lemma WorksKeeps(inv: Property, s: S, s': S)
    requires ClosedUnderHandler(inv) && inv(s) && Works(s, s')
    ensures inv(s')
  {
  }

  lemma ProgressKeeps(inv: Property, s: S, s': S)
    requires ClosedUnderProgress(inv) && inv(s) && Progresses(s, s')
    ensures inv(s')
  {
  }

  // ---- payloads ----

  lemma FileCancelKeeps(inv: Property, s: S, id: string, reason: CancelReason)
    requires ClosedUnderHandler(inv) && inv(s)
    ensures inv(HandleFileCancel(s, id, reason))
  {
    var why := CancelReasonOf(reason);
    assert inv(Stopped(s, why));
    FailReceiveIsQuiet(s, id, why);
    QuietKeeps(inv, s, FailReceive(s, id, why));
    if s.x.pendingAck == Some(id) {
      assert CancelPendingAck(s, id, why) == AckFailed(s, why);
    }
  }

  lemma ReceivedKeeps(inv: Property, s: S, id: string)
    requires ClosedUnderProgress(inv) && inv(s)
    ensures inv(HandleFileReceived(s, id))
  {
    assert inv(AckForgotten(s));
    if s.hs.verified {
      var s1 := if s.x.pendingAck == Some(id) then AckForgotten(s) else s;
      HushedKeeps(inv, s1, Emits(s1, FileArrived(id)));
    }
  }

  lemma OfferIsQuiet(s: S, o: FileOffer)
    ensures Quiet(s, HandleOffer(s, o))
  {
  }

  lemma SayingIsHushed(s: S, e: Event)
    requires !e.FileFailed? && !IsReceiveEvent(e)
    ensures Hushed(s, Emits(s, e))
  {
  }

  lemma NewsIsHushed(s: S, p: Message, now: int)
    requires p.Identity? || p.Chat? || p.Delivered? || p.Typing?
    ensures Hushed(s, HandlePayload(s, p, now))
  {
    match p {
      case Identity(name) => SayingIsHushed(s, PeerIdentity(name));
      case Chat(id, text) => SayingIsHushed(s, ChatFrom(text, now, id));
      case Delivered(id) => SayingIsHushed(s, DeliveredTo(id));
      case Typing(active) => SayingIsHushed(s, PeerTyping(active));
    }
  }

  /** The handshake is confirmed by this payload. */
  predicate Confirms(s: S, p: Message) {
    p.KeyConfirm? && s.hs.expected == Some(p.transcriptHash)
  }

  lemma ConfirmKeeps(inv: Property, s: S, t: Transcript)
    requires ClosedUnderProgress(inv) && inv(s) && (Confirms(s, KeyConfirm(t)) ==> ClosedUnderSecuring(inv))
    ensures inv(HandleConfirm(s, t))
  {
    if s.hs.expected == Some(t) {
      ProgressKeeps(inv, s, s.(hs := s.hs.(verified := true)));
    } else {
      FailHandshakeKeeps(inv, s, KeyConfirmFailed);
    }
  }

  lemma PayloadKeeps(inv: Property, s: S, p: Message, now: int)
    requires ClosedUnderProgress(inv) && inv(s) && !p.FileDone? && (Confirms(s, p) ==> ClosedUnderSecuring(inv))
    requires p.Offer? || p.FileCancel? ==> ClosedUnderHandler(inv)
    ensures inv(HandlePayload(s, p, now))
  {
    match p {
      case KeyConfirm(t) => ConfirmKeeps(inv, s, t);
      case End => FinishKeeps(inv, s, ByPeer, true);
      case Offer(o) => OfferIsQuiet(s, o); QuietKeeps(inv, s, HandleOffer(s, o));
      case FileCancel(id, reason) => FileCancelKeeps(inv, s, id, reason);
      case FileReceived(id) => ReceivedKeeps(inv, s, id);
      case _ => NewsIsHushed(s, p, now); HushedKeeps(inv, s, HandlePayload(s, p, now));
    }
  }

  // ---- the awaits ----

  lemma NextBufferedWorks(s: S, rest: seq<Cipher>)
    ensures Progresses(s, NextBuffered(s, rest))
  {
  }

  lemma StartFinishWorks(s: S, id: string, sha256: string, rest: seq<Cipher>)
    ensures Works(s, StartFinish(s, id, sha256, rest))
  {
    NextBufferedWorks(s, rest);
  }

  /** The frame being decrypted confirms the handshake. */
  predicate FrameConfirms(s: S) {
    && s.handler.Busy? && s.handler.aw.Decrypting? && s.hs.expected.Some?
    && s.handler.aw.cipher == Sealed(s.handler.aw.key, KeyConfirm(s.hs.expected.value))
  }

  /** The handler is at work on a file being received, or will be once it has opened
      the frame. */
  predicate TouchesReceive(h: Handler) {
    || Receiving(h)
    || (&& h.Busy? && h.aw.Decrypting?
        && var p := Decrypt(h.aw.key, h.aw.cipher);
           p.Some? && (p.value.Offer? || p.value.FileCancel? || p.value.FileDone?))
  }

  lemma DecryptKeeps(inv: Property, s: S, key: Key, cipher: Cipher, rest: seq<Cipher>, now: int)
    requires ClosedUnderProgress(inv) && inv(s) && s.handler == Busy(Decrypting(key, cipher, rest))
    requires FrameConfirms(s) ==> ClosedUnderSecuring(inv)
    requires TouchesReceive(s.handler) ==> ClosedUnderHandler(inv)
    ensures inv(AfterDecrypt(s, key, cipher, rest, now))
  {
    var p := Decrypt(key, cipher);
    var s1 := s.(handler := Idle);
    ProgressKeeps(inv, s, s1);
    if p.None? {
      FailHandshakeKeeps(inv, s1, KeyConfirmFailed);
      NextBufferedKeeps(inv, if s1.hs.verified then s1 else FailHandshake(s1, KeyConfirmFailed), rest);
    } else if p.value.FileDone? {
      StartFinishWorks(s1, p.value.id, p.value.sha256, rest);
      WorksKeeps(inv, s1, StartFinish(s1, p.value.id, p.value.sha256, rest));
    } else {
      PayloadKeeps(inv, s1, p.value, now);
      NextBufferedKeeps(inv, HandlePayload(s1, p.value, now), rest);
    }
  }

  lemma NextBufferedKeeps(inv: Property, s: S, rest: seq<Cipher>)
    requires ClosedUnderProgress(inv) && inv(s)
    ensures inv(NextBuffered(s, rest))
  {
    NextBufferedWorks(s, rest);
    ProgressKeeps(inv, s, NextBuffered(s, rest));
  }

  lemma ChunkKeeps(inv: Property, s: S, job: ReceiveJob, frame: Binary)
    requires ClosedUnderHandler(inv) && inv(s)
    ensures inv(AfterChunk(s, job, frame))
  {
    if frame.OtherBinaryVersion? {
      HandlerFails(inv, s, VersionMismatch);
    } else {
      var s1 := s.(handler := Idle);
      WorksKeeps(inv, s, s1);
      ChunkIsQuiet(s1, job, frame);
      QuietKeeps(inv, s1, TakeChunk(s1, job, frame));
    }
  }

  lemma FinishedFileKeeps(inv: Property, hash: seq<byte> -> string, s: S, job: ReceiveJob, sha256: string, rest: seq<Cipher>)
    requires ClosedUnderHandler(inv) && inv(s)
    ensures inv(AfterFinish(hash, s, job, sha256, rest))
  {
    var file := FileTransfer.Finish(job.r, hash, sha256);
    var s1 := Emits(s.(handler := Idle), if file.Some? then FileComplete(job.r.id, file.value)
                                         else FileFailed(job.r.id, Incoming, Failed));
    WorksKeeps(inv, s, s1);
    NextBufferedKeeps(inv, s1, rest);
  }

  lemma ExportKeeps(inv: Property, s: S, mine: nat)
    requires ClosedUnderProgress(inv) && inv(s)
    ensures inv(AfterExport(s, mine))
  {
    if s.dataOpen {
      ProgressKeeps(inv, s, AfterExport(s, mine));
    } else {
      var s1 := s.(hs := s.hs.(myPub := Some(mine)));
      ProgressKeeps(inv, s, s1);
      HandlerFails(inv, s1, SignalingGone);
    }
  }

  lemma ImportKeeps(inv: Property, s: S, peer: PubKey)
    requires ClosedUnderProgress(inv) && inv(s)
    ensures inv(AfterImport(s, peer))
  {
    if peer.BadPub? || s.hs.keyPair.None? {
      HandlerFails(inv, s, KeyConfirmFailed);
    } else {
      ProgressKeeps(inv, s, AfterImport(s, peer));
    }
  }

  lemma TranscriptKeeps(inv: Property, s: S, t: Transcript)
    requires ClosedUnderProgress(inv) && inv(s)
    ensures inv(AfterTranscript(s, t))
  {
    if s.hs.key.None? {
      HandlerFails(inv, s, KeyConfirmFailed);
    } else {
      ProgressKeeps(inv, s, AfterTranscript(s, t));
    }
  }

  lemma SealingKeeps(inv: Property, s: S, key: Key, t: Transcript)
    requires ClosedUnderProgress(inv) && inv(s) && s.handler == Busy(SealingConfirm(key, t))
    ensures inv(AfterSealing(s, key, t))
  {
    if s.dataOpen {
      var s1 := s.(handler := Idle, log := s.log + [SendText(SealedFrame(Sealed(key, KeyConfirm(t))))],
                   hs := s.hs.(buffer := []));
      ProgressKeeps(inv, s, s1);
      NextBufferedKeeps(inv, s1, s.hs.buffer);
    } else {
      HandlerFails(inv, s, KeyConfirmFailed);
    }
  }

  /** The handler runs on from whatever it awaits. */
  lemma HandlerStepKeeps(inv: Property, hash: seq<byte> -> string, s: S, priv: nat, now: int)
    requires ClosedUnderProgress(inv) && inv(s) && s.handler.Busy?
    requires FrameConfirms(s) ==> ClosedUnderSecuring(inv)
    requires TouchesReceive(s.handler) ==> ClosedUnderHandler(inv)
    ensures inv(ResumeHandler(hash, s, priv, now))
  {
    match s.handler.aw {
      case Exporting(mine) => ExportKeeps(inv, s, mine);
      case Importing(peer) => ImportKeeps(inv, s, peer);
      case HashingTranscript(t) => HashedKeeps(inv, s, t);
      case SealingConfirm(key, t) => SealingKeeps(inv, s, key, t);
      case Decrypting(key, cipher, rest) => DecryptKeeps(inv, s, key, cipher, rest, now);
      case FinishingFile(job, sha256, rest) => FinishedFileKeeps(inv, hash, s, job, sha256, rest);
      case AcceptingChunk(job, frame) => ChunkKeeps(inv, s, job, frame);
      case _ =>
        DerivingWorks(hash, s, priv, now);
        ProgressKeeps(inv, s, ResumeHandler(hash, s, priv, now));
    }
  }

  lemma DerivingWorks(hash: seq<byte> -> string, s: S, priv: nat, now: int)
    requires s.handler.Busy?
    requires var aw := s.handler.aw; aw.Generating? || aw.Sharing? || aw.DerivingKey? || aw.DerivingCode?
    ensures Progresses(s, ResumeHandler(hash, s, priv, now))
  {
  }

  lemma HashedKeeps(inv: Property, s: S, t: Transcript)
    requires ClosedUnderProgress(inv) && inv(s)
    ensures inv(AfterTranscript(s.(hs := s.hs.(expected := Some(t))), t))
  {
    var s1 := s.(hs := s.hs.(expected := Some(t)));
    ProgressKeeps(inv, s, s1);
    TranscriptKeeps(inv, s1, t);
  }

  // ---- data events ----

  lemma DataEventKeeps(inv: Property, s: S, e: TransportEvent, now: int)
    requires ClosedUnderProgress(inv) && inv(s) && (e.DataText? || e.DataBinary?)
    requires e.DataBinary? ==> ClosedUnderHandler(inv)
    ensures inv(HandleEvent(s, e, now))
  {
    if s.status != Ended {
      if e.DataBinary? {
        BinaryWorks(s, e.chunk);
        WorksKeeps(inv, s, HandleBinary(s, e.chunk));
      } else if e.frame.PubFrame? || e.frame.SealedFrame? {
        TextWorks(s, e.frame);
        ProgressKeeps(inv, s, HandleText(s, e.frame));
      } else {
        UnparsedKeeps(inv, s, e.frame);
      }
    }
  }

  lemma TextWorks(s: S, frame: TextFrame)
    requires frame.PubFrame? || frame.SealedFrame?
    ensures Progresses(s, HandleText(s, frame))
  {
    if frame.PubFrame? { KeyTextWorks(s, frame); } else { CipherTextWorks(s, frame); }
  }

  lemma KeyTextWorks(s: S, frame: TextFrame)
    requires frame.PubFrame?
    ensures Progresses(s, HandleText(s, frame))
  {
  }

  lemma CipherTextWorks(s: S, frame: TextFrame)
    requires frame.SealedFrame?
    ensures Progresses(s, HandleText(s, frame))
  {
  }

  lemma BinaryWorks(s: S, frame: Binary)
    ensures Works(s, HandleBinary(s, frame))
  {
  }

  lemma UnparsedKeeps(inv: Property, s: S, frame: TextFrame)
    requires ClosedUnderProgress(inv) && inv(s)
    ensures inv(HandleUnparsed(s, frame))
  {
    FailHandshakeKeeps(inv, s, VersionMismatch);
    FailHandshakeKeeps(inv, s, KeyConfirmFailed);
  }

  /** The steps of the queue and its drain loop, and what the application sends. */
  predicate IsSendStep(a: Action) {
    a.FileOffered? || a.FileCancelled? || a.LoopRunsOn? || a.ChannelDrained? || a.AppSends? || a.EndTailRuns?
  }

  /** The steps that take in an offer, a chunk or the end of a file. */
  predicate IsReceiveStep(s: S, a: Action) {
    (a.HandlerRuns? && TouchesReceive(s.handler)) || (a.Deliver? && a.event.DataBinary?)
  }

  /** Every other step that does not touch tokens keeps every such property. */
  lemma OtherStepKeeps(inv: Property, hash: seq<byte> -> string, s: S, a: Action)
    requires ClosedUnderProgress(inv) && inv(s) && Enabled(s, a) && !IsSendStep(a)
    requires !(a.Deliver? && TouchesTokens(a.event))
    requires a.HandlerRuns? && FrameConfirms(s) ==> ClosedUnderSecuring(inv)
    requires IsReceiveStep(s, a) ==> ClosedUnderHandler(inv)
    ensures inv(Next(hash, s, a))
  {
    if IsPlain(a) {
      PlainStepKeeps(inv, hash, s, a);
    } else if a.HandlerRuns? {
      HandlerStepKeeps(inv, hash, s, a.priv, a.now);
    } else {
      DataEventKeeps(inv, s, a.event, a.now);
    }
  }

  /** And so do the others, if the property does not depend on tokens. */
  lemma StepKeeps(inv: Property, hash: seq<byte> -> string, s: S, a: Action)
    requires ClosedUnderProgress(inv) && ClosedUnderTokens(inv) && inv(s) && Enabled(s, a) && !IsSendStep(a)
    requires a.HandlerRuns? && FrameConfirms(s) ==> ClosedUnderSecuring(inv)
    requires IsReceiveStep(s, a) ==> ClosedUnderHandler(inv)
    ensures inv(Next(hash, s, a))
  {
    if a.Deliver? && TouchesTokens(a.event) {
      TokenStepKeeps(inv, s, a.event, a.now);
    } else {
      OtherStepKeeps(inv, hash, s, a);
    }
  }
}
