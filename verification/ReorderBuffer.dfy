/** The inbound reorder buffer: where the peer's public key falls among the
    encrypted frames makes no difference. */
module ReorderBuffer {
  import opened Wrappers
  import opened Base64url
  import opened Wire
  import opened FileTransfer
  import opened Session

  // ---- running a handler to its end ----

  function Stage(aw: Await): nat {
    match aw
    case Generating => 7
    case Exporting(_) => 6
    case Importing(_) => 5
    case Sharing(_, _) => 4
    case DerivingKey(_, _) => 3
    case DerivingCode(_, _) => 2
    case HashingTranscript(_) => 1
    case _ => 0
  }

  /** How far the handler is from its end. */
  function Distance(h: Handler, buffered: nat): nat {
    match h
    case Idle => 0
    case Busy(aw) =>
      match aw
      case Decrypting(_, _, rest) => 2 * |rest| + 2
      case FinishingFile(_, _, rest) => 2 * |rest| + 1
      case AcceptingChunk(_, _) => 1
      case _ => 2 * buffered + 1 + Stage(aw)
  }

  lemma NextBufferedShrinks(s: S, rest: seq<Cipher>)
    ensures Distance(NextBuffered(s, rest).handler, 0) <= 2 * |rest|
    ensures var h := NextBuffered(s, rest).handler; h == Idle || h.aw.Decrypting?
  {
  }

  lemma DecryptShrinks(s: S, key: Key, cipher: Cipher, rest: seq<Cipher>, now: int)
    ensures var h := AfterDecrypt(s, key, cipher, rest, now).handler;
            (h == Idle || h.aw.Decrypting? || h.aw.FinishingFile?) && Distance(h, 0) <= 2 * |rest| + 1
  {
    var p := Decrypt(key, cipher);
    var s1 := s.(handler := Idle);
    if p.None? {
      NextBufferedShrinks(if s1.hs.verified then s1 else FailHandshake(s1, KeyConfirmFailed), rest);
    } else if p.value.FileDone? {
      NextBufferedShrinks(s1, rest);
    } else {
      NextBufferedShrinks(HandlePayload(s1, p.value, now), rest);
    }
  }

  lemma SealingShrinks(s: S, key: Key, t: Transcript)
    ensures var h := AfterSealing(s, key, t).handler;
            (h == Idle || h.aw.Decrypting?) && Distance(h, 0) <= 2 * |s.hs.buffer|
  {
    if s.dataOpen {
      NextBufferedShrinks(s.(handler := Idle, log := s.log + [SendText(SealedFrame(Sealed(key, KeyConfirm(t))))],
                             hs := s.hs.(buffer := [])), s.hs.buffer);
    }
  }

  lemma ExportEnds(s: S, mine: nat)
    ensures AfterExport(s, mine).handler == Idle
  {
  }

  lemma ChunkEnds(s: S, job: ReceiveJob, frame: Binary)
    ensures AfterChunk(s, job, frame).handler == Idle
  {
  }

  lemma ImportShrinks(s: S, peer: PubKey)
    ensures var h := AfterImport(s, peer).handler; h == Idle || (h.aw.Sharing? && AfterImport(s, peer).hs == s.hs)
  {
  }

  lemma TranscriptShrinks(s: S, t: Transcript)
    ensures var h := AfterTranscript(s, t).handler; h == Idle || (h.aw.SealingConfirm? && AfterTranscript(s, t).hs == s.hs)
  {
  }

  lemma FinishShrinks(hash: seq<byte> -> string, s: S, job: ReceiveJob, sha256: string, rest: seq<Cipher>)
    ensures var h := AfterFinish(hash, s, job, sha256, rest).handler;
            (h == Idle || h.aw.Decrypting?) && Distance(h, 0) <= 2 * |rest|
  {
    var file := FileTransfer.Finish(job.r, hash, sha256);
    NextBufferedShrinks(Emits(s.(handler := Idle), if file.Some? then FileComplete(job.r.id, file.value)
                                                   else FileFailed(job.r.id, Incoming, Failed)), rest);
  }

  /** Only the handshake awaits count what is buffered. */
  lemma DistanceIgnoresBuffer(h: Handler, n: nat, m: nat)
    requires h == Idle || h.aw.Decrypting? || h.aw.FinishingFile?
    ensures Distance(h, n) == Distance(h, m)
  {
  }

  lemma ResumeShrinks(hash: seq<byte> -> string, s: S, priv: nat, now: int)
    requires s.handler.Busy?
    ensures var r := ResumeHandler(hash, s, priv, now);
            Distance(r.handler, |r.hs.buffer|) < Distance(s.handler, |s.hs.buffer|)
  {
    match s.handler.aw {
      case SealingConfirm(key, t) =>
        SealingShrinks(s, key, t);
        DistanceIgnoresBuffer(AfterSealing(s, key, t).handler, 0, |AfterSealing(s, key, t).hs.buffer|);
      case Decrypting(key, cipher, rest) =>
        DecryptShrinks(s, key, cipher, rest, now);
        var r := AfterDecrypt(s, key, cipher, rest, now);
        DistanceIgnoresBuffer(r.handler, 0, |r.hs.buffer|);
      case FinishingFile(job, sha256, rest) => FinishShrinks(hash, s, job, sha256, rest);
      case AcceptingChunk(job, frame) => ChunkEnds(s, job, frame);
      case _ => DerivingShrinks(hash, s, priv, now);
    }
  }

  lemma DerivingShrinks(hash: seq<byte> -> string, s: S, priv: nat, now: int)
    requires s.handler.Busy? && Stage(s.handler.aw) > 0
    ensures var r := ResumeHandler(hash, s, priv, now);
            Distance(r.handler, |r.hs.buffer|) < Distance(s.handler, |s.hs.buffer|)
  {
    match s.handler.aw {
      case Exporting(mine) => ExportEnds(s, mine);
      case Importing(peer) => ImportShrinks(s, peer);
      case HashingTranscript(t) => TranscriptShrinks(s.(hs := s.hs.(expected := Some(t))), t);
      case _ =>
    }
  }

  /** The handler runs to its end with nothing in between. */
  function Settle(hash: seq<byte> -> string, s: S, priv: nat, now: int): (r: S)
    ensures r.handler == Idle
    decreases Distance(s.handler, |s.hs.buffer|)
  {
    if s.handler == Idle then s
    else
      ResumeShrinks(hash, s, priv, now);
      Settle(hash, ResumeHandler(hash, s, priv, now), priv, now)
  }

  lemma SettleStep(hash: seq<byte> -> string, s: S, s': S, priv: nat, now: int)
    requires s.handler.Busy? && ResumeHandler(hash, s, priv, now) == s'
    ensures Settle(hash, s, priv, now) == Settle(hash, s', priv, now)
  {
  }

  /** Text frames arrive one after the other, each handled to its end. */
  function Feed(hash: seq<byte> -> string, s: S, frames: seq<TextFrame>, priv: nat, now: int): (r: S)
    requires s.handler == Idle
    ensures r.handler == Idle
    decreases |frames|
  {
    if frames == [] then s
    else Feed(hash, Settle(hash, HandleEvent(s, DataText(frames[0]), now), priv, now), frames[1..], priv, now)
  }

  function Frames(ciphers: seq<Cipher>): (r: seq<TextFrame>)
    ensures |r| == |ciphers| && forall i :: 0 <= i < |r| ==> r[i] == SealedFrame(ciphers[i])
  {
    seq(|ciphers|, i requires 0 <= i < |ciphers| => SealedFrame(ciphers[i]))
  }

  lemma {:induction false} FeedAppend(hash: seq<byte> -> string, s: S, a: seq<TextFrame>, b: seq<TextFrame>, priv: nat, now: int)
    requires s.handler == Idle
    ensures Feed(hash, s, a + b, priv, now) == Feed(hash, Feed(hash, s, a, priv, now), b, priv, now)
    decreases |a|
  {
    if a == [] {
      assert a + b == b;
    } else {
      assert (a + b)[1..] == a[1..] + b;
      FeedAppend(hash, Settle(hash, HandleEvent(s, DataText(a[0]), now), priv, now), a[1..], b, priv, now);
    }
  }

  lemma {:induction false} FeedEnded(hash: seq<byte> -> string, s: S, frames: seq<TextFrame>, priv: nat, now: int)
    requires s.handler == Idle && s.status == Ended
    ensures Feed(hash, s, frames, priv, now) == s
    decreases |frames|
  {
    if frames != [] {
      FeedEnded(hash, s, frames[1..], priv, now);
    }
  }

  // ---- one encrypted frame ----

  /** A session that handles frames: it has a key until it ends. */
  predicate Keyed(s: S) {
    s.handler == Idle && (s.status == Ended <==> s.hs.key.None?) && (s.hs.key.None? ==> s.hs.expected.None?)
  }

  /** What one frame makes of the session, however it arrived. */
  function Digest(hash: seq<byte> -> string, s: S, key: Key, cipher: Cipher, now: int): S {
    var p := Decrypt(key, cipher);
    if p.None? then if s.hs.verified then s else FailHandshake(s, KeyConfirmFailed)
    else if !p.value.FileDone? then HandlePayload(s, p.value, now)
    else if !s.hs.verified || s.x.receive.None? || s.x.receive.value.r.id != p.value.id then s
    else
      var job := s.x.receive.value;
      var file := FileTransfer.Finish(job.r, hash, p.value.sha256);
      Emits(s.(x := s.x.(receive := None)),
            if file.Some? then FileComplete(job.r.id, file.value) else FileFailed(job.r.id, Incoming, Failed))
  }

  lemma FailKeepsKeyed(s: S, reason: EndReason)
    requires Keyed(s)
    ensures Keyed(FailHandshake(s, reason))
  {
  }

  lemma PayloadKeepsKeyed(s: S, p: Message, now: int)
    requires Keyed(s) && !p.FileDone?
    ensures Keyed(HandlePayload(s, p, now))
  {
    match p {
      case KeyConfirm(_) => FailKeepsKeyed(s, KeyConfirmFailed);
      case End => FinishKeepsKeyed(s, ByPeer);
      case FileCancel(id, reason) => CancelKeepsKeyed(s, id, reason);
      case Offer(o) => OfferKeepsKeyed(s, o);
      case _ =>
    }
  }

  lemma FinishKeepsKeyed(s: S, reason: EndReason)
    requires Keyed(s)
    ensures Keyed(FinishSession(s, reason, true))
  {
  }

  lemma CancelKeepsKeyed(s: S, id: string, reason: CancelReason)
    requires Keyed(s)
    ensures Keyed(HandleFileCancel(s, id, reason))
  {
  }

  lemma OfferKeepsKeyed(s: S, o: FileOffer)
    requires Keyed(s)
    ensures Keyed(HandleOffer(s, o))
  {
  }

  lemma DigestKeepsKeyed(hash: seq<byte> -> string, s: S, key: Key, cipher: Cipher, now: int)
    requires Keyed(s)
    ensures Keyed(Digest(hash, s, key, cipher, now))
  {
    var p := Decrypt(key, cipher);
    if p.None? {
      FailKeepsKeyed(s, KeyConfirmFailed);
    } else if !p.value.FileDone? {
      PayloadKeepsKeyed(s, p.value, now);
    }
  }

  /** A frame being decrypted, whatever is still buffered behind it. */
  lemma OneFrame(hash: seq<byte> -> string, s: S, key: Key, cipher: Cipher, rest: seq<Cipher>, priv: nat, now: int)
    requires Keyed(s) && s.hs.key == Some(key)
    ensures Settle(hash, s.(handler := Busy(Decrypting(key, cipher, rest))), priv, now)
         == Settle(hash, NextBuffered(Digest(hash, s, key, cipher, now), rest), priv, now)
  {
    var s1 := s.(handler := Busy(Decrypting(key, cipher, rest)));
    var p := Decrypt(key, cipher);
    assert s1.(handler := Idle) == s;
    if p.Some? && p.value.FileDone? {
      SettleStep(hash, s1, StartFinish(s, p.value.id, p.value.sha256, rest), priv, now);
      OneDoneFrame(hash, s, key, cipher, rest, priv, now);
    } else {
      SettleStep(hash, s1, NextBuffered(Digest(hash, s, key, cipher, now), rest), priv, now);
    }
  }

  lemma OneDoneFrame(hash: seq<byte> -> string, s: S, key: Key, cipher: Cipher, rest: seq<Cipher>, priv: nat, now: int)
    requires Keyed(s) && Decrypt(key, cipher).Some? && Decrypt(key, cipher).value.FileDone?
    ensures var p := Decrypt(key, cipher).value;
            (Settle(hash, StartFinish(s, p.id, p.sha256, rest), priv, now)
             == Settle(hash, NextBuffered(Digest(hash, s, key, cipher, now), rest), priv, now))
  {
    var p := Decrypt(key, cipher).value;
    if s.hs.verified && s.x.receive.Some? && s.x.receive.value.r.id == p.id {
      var s2 := StartFinish(s, p.id, p.sha256, rest);
      SettleStep(hash, s2, NextBuffered(Digest(hash, s, key, cipher, now), rest), priv, now);
    }
  }

  /** Replaying a buffer is the same as the frames arriving one by one. */
  lemma {:induction false} ReplayIsFeed(hash: seq<byte> -> string, s: S, buffer: seq<Cipher>, priv: nat, now: int)
    requires Keyed(s)
    ensures Settle(hash, NextBuffered(s, buffer), priv, now) == Feed(hash, s, Frames(buffer), priv, now)
    decreases |buffer|
  {
    if buffer == [] {
      assert NextBuffered(s, buffer) == s;
    } else if s.status == Ended {
      FeedEnded(hash, s, Frames(buffer), priv, now);
      assert NextBuffered(s, buffer) == s;
    } else {
      var key, cipher, rest := s.hs.key.value, buffer[0], buffer[1..];
      var u := Digest(hash, s, key, cipher, now);
      OneFrame(hash, s, key, cipher, rest, priv, now);
      OneFrame(hash, s, key, cipher, [], priv, now);
      DigestKeepsKeyed(hash, s, key, cipher, now);
      assert NextBuffered(u, []) == u;
      ReplayIsFeed(hash, u, rest, priv, now);
      assert Frames(buffer)[1..] == Frames(rest);
      assert HandleEvent(s, DataText(Frames(buffer)[0]), now) == s.(handler := Busy(Decrypting(key, cipher, [])));
    }
  }

  // ---- the public key ----

  /** A session between sending its own key and getting the peer's. */
  predicate AwaitsKey(s: S) {
    s.handler == Idle && s.status != Ended && s.hs.keyPair.Some? && s.hs.key.None?
  }

  lemma {:induction false} FramesAreBuffered(hash: seq<byte> -> string, s: S, ciphers: seq<Cipher>, priv: nat, now: int)
    requires AwaitsKey(s)
    ensures Feed(hash, s, Frames(ciphers), priv, now) == s.(hs := s.hs.(buffer := s.hs.buffer + ciphers))
    decreases |ciphers|
  {
    if ciphers == [] {
      assert s.hs.buffer + ciphers == s.hs.buffer;
    } else {
      var s1 := s.(hs := s.hs.(buffer := s.hs.buffer + [ciphers[0]]));
      assert HandleEvent(s, DataText(Frames(ciphers)[0]), now) == s1;
      assert Frames(ciphers)[1..] == Frames(ciphers[1..]);
      FramesAreBuffered(hash, s1, ciphers[1..], priv, now);
      assert s.hs.buffer + [ciphers[0]] + ciphers[1..] == s.hs.buffer + ciphers;
    }
  }

  /** The session once it has sent its key-confirm, its buffer taken. */
  function Confirming(s: S, peer: nat): S
    requires s.hs.keyPair.Some?
  {
    var shared := DH(s.hs.keyPair.value, peer);
    var t := TranscriptOf(s.hs.myPub, peer);
    s.(hs := s.hs.(key := Some(Key(s.secret, shared)), code := Some(SafetyCode(s.secret, shared)), expected := Some(t), buffer := []),
       log := s.log + [SendText(SealedFrame(Sealed(Key(s.secret, shared), KeyConfirm(t))))])
  }

  /** From the peer's key to the session key. */
  lemma Derives(hash: seq<byte> -> string, s: S, peer: nat, priv: nat, now: int)
    requires AwaitsKey(s)
    ensures var shared := DH(s.hs.keyPair.value, peer);
            (Settle(hash, s.(handler := Busy(Importing(Pub(peer)))), priv, now)
             == Settle(hash, s.(hs := s.hs.(key := Some(Key(s.secret, shared))), handler := Busy(DerivingCode(peer, shared))),
                       priv, now))
  {
    var shared := DH(s.hs.keyPair.value, peer);
    var s2 := s.(handler := Busy(Sharing(peer, shared)));
    var s3 := s.(handler := Busy(DerivingKey(peer, shared)));
    var s4 := s.(hs := s.hs.(key := Some(Key(s.secret, shared))), handler := Busy(DerivingCode(peer, shared)));
    SettleStep(hash, s.(handler := Busy(Importing(Pub(peer)))), s2, priv, now);
    SettleStep(hash, s2, s3, priv, now);
    SettleStep(hash, s3, s4, priv, now);
  }

  /** The session with its handshake state complete, its buffer untouched. */
  function Derived(s: S, peer: nat): S
    requires s.hs.keyPair.Some?
  {
    s.(hs := Confirming(s, peer).hs.(buffer := s.hs.buffer))
  }

  /** From the peer's key to the last step of the handshake. */
  lemma DerivesAndSeals(hash: seq<byte> -> string, s: S, peer: nat, priv: nat, now: int)
    requires AwaitsKey(s)
    ensures var r := Derived(s, peer);
            (Settle(hash, s.(handler := Busy(Importing(Pub(peer)))), priv, now)
             == Settle(hash, r.(handler := Busy(SealingConfirm(r.hs.key.value, r.hs.expected.value))), priv, now))
  {
    var shared := DH(s.hs.keyPair.value, peer);
    var t := TranscriptOf(s.hs.myPub, peer);
    Derives(hash, s, peer, priv, now);
    var s4 := s.(hs := s.hs.(key := Some(Key(s.secret, shared))), handler := Busy(DerivingCode(peer, shared)));
    var s5 := s4.(hs := s4.hs.(code := Some(SafetyCode(s.secret, shared))), handler := Busy(HashingTranscript(t)));
    var s6 := s5.(hs := s5.hs.(expected := Some(t)), handler := Busy(SealingConfirm(Key(s.secret, shared), t)));
    SettleStep(hash, s4, s5, priv, now);
    SettleStep(hash, s5, s6, priv, now);
  }

  lemma FailIgnoresHandshake(s: S, hs: Handshake, reason: EndReason)
    requires s.status != Ended
    ensures FailHandshake(s.(hs := hs), reason) == FailHandshake(s, reason)
  {
  }

  /** The peer's key arrives: the handshake fails, or the buffer is replayed. */
  lemma KeyArrives(hash: seq<byte> -> string, s: S, key: PubKey, priv: nat, now: int)
    requires AwaitsKey(s)
    ensures Settle(hash, HandleEvent(s, DataText(PubFrame(key)), now), priv, now)
         == if key.BadPub? || !s.dataOpen then FailHandshake(s, KeyConfirmFailed)
            else Settle(hash, NextBuffered(Confirming(s, key.n), s.hs.buffer), priv, now)
  {
    TakesUpKey(s, key, now);
    if key.BadPub? {
      BadKeyFails(hash, s, priv, now);
    } else {
      DerivesAndSeals(hash, s, key.n, priv, now);
      SealingEnds(hash, s, key.n, priv, now);
    }
  }

  lemma TakesUpKey(s: S, key: PubKey, now: int)
    requires AwaitsKey(s)
    ensures HandleEvent(s, DataText(PubFrame(key)), now) == s.(handler := Busy(Importing(key)))
  {
  }

  lemma BadKeyFails(hash: seq<byte> -> string, s: S, priv: nat, now: int)
    requires AwaitsKey(s)
    ensures Settle(hash, s.(handler := Busy(Importing(BadPub))), priv, now) == FailHandshake(s, KeyConfirmFailed)
  {
    var s1 := s.(handler := Busy(Importing(BadPub)));
    assert s1.(handler := Idle) == s;
    SettleStep(hash, s1, FailHandshake(s, KeyConfirmFailed), priv, now);
  }

  lemma SealingEnds(hash: seq<byte> -> string, s: S, peer: nat, priv: nat, now: int)
    requires AwaitsKey(s)
    ensures var r := Derived(s, peer);
            (Settle(hash, r.(handler := Busy(SealingConfirm(r.hs.key.value, r.hs.expected.value))), priv, now)
             == if !s.dataOpen then FailHandshake(s, KeyConfirmFailed)
                else Settle(hash, NextBuffered(Confirming(s, peer), s.hs.buffer), priv, now))
  {
    var r := Derived(s, peer);
    var key, t := r.hs.key.value, r.hs.expected.value;
    SettleSealing(hash, r.(handler := Busy(SealingConfirm(key, t))), key, t, priv, now);
    if !s.dataOpen {
      SealingFails(s, r, key, t);
      FailedStays(hash, s, [], priv, now);
    } else {
      SealingReplays(s, peer, key, t);
    }
  }

  lemma SettleSealing(hash: seq<byte> -> string, s: S, key: Key, t: Transcript, priv: nat, now: int)
    requires s.handler == Busy(SealingConfirm(key, t))
    ensures Settle(hash, s, priv, now) == Settle(hash, AfterSealing(s, key, t), priv, now)
  {
    SettleStep(hash, s, AfterSealing(s, key, t), priv, now);
  }

  lemma SealingFails(s: S, r: S, key: Key, t: Transcript)
    requires AwaitsKey(s) && !s.dataOpen && r == s.(hs := r.hs)
    ensures AfterSealing(r.(handler := Busy(SealingConfirm(key, t))), key, t) == FailHandshake(s, KeyConfirmFailed)
  {
    FailIgnoresHandshake(s, r.hs, KeyConfirmFailed);
    assert r.(handler := Busy(SealingConfirm(key, t))).(handler := Idle) == r;
  }

  lemma SealingReplays(s: S, peer: nat, key: Key, t: Transcript)
    requires AwaitsKey(s) && s.dataOpen
    requires var hs := Derived(s, peer).hs; hs.key == Some(key) && hs.expected == Some(t)
    ensures AfterSealing(Derived(s, peer).(handler := Busy(SealingConfirm(key, t))), key, t)
         == NextBuffered(Confirming(s, peer), s.hs.buffer)
  {
    var c := Confirming(s, peer);
    assert Derived(s, peer).(handler := Idle, log := c.log, hs := c.hs) == c;
  }

  // ---- confluence ----

  /** Between data-open and the peer's key, every position of the public key
      among the encrypted frames gives the same session, the same events and the
      same messages as the key coming first; frames that do not decrypt, a key
      that does not import and a channel that is gone included. */
  lemma KeyPositionIsIrrelevant(hash: seq<byte> -> string, s: S, key: PubKey, before: seq<Cipher>, after: seq<Cipher>,
                                priv: nat, now: int)
    requires AwaitsKey(s)
    ensures Feed(hash, s, Frames(before) + [PubFrame(key)] + Frames(after), priv, now)
         == Feed(hash, s, [PubFrame(key)] + (Frames(before) + Frames(after)), priv, now)
  {
    var pub := [PubFrame(key)];
    KeyLastIsKeyFirst(hash, s, key, before, priv, now);
    FeedAppend(hash, s, Frames(before) + pub, Frames(after), priv, now);
    FeedAppend(hash, s, pub + Frames(before), Frames(after), priv, now);
    Associative(pub, Frames(before), Frames(after));
  }

  lemma Associative(a: seq<TextFrame>, b: seq<TextFrame>, c: seq<TextFrame>)
    ensures a + (b + c) == (a + b) + c
  {
  }

  lemma FramesAppend(a: seq<Cipher>, b: seq<Cipher>)
    ensures Frames(a + b) == Frames(a) + Frames(b)
  {
  }

  lemma FeedOne(hash: seq<byte> -> string, s: S, frame: TextFrame, priv: nat, now: int)
    requires s.handler == Idle
    ensures Feed(hash, s, [frame], priv, now) == Settle(hash, HandleEvent(s, DataText(frame), now), priv, now)
  {
    assert [frame][1..] == [];
  }

  lemma KeyLastIsKeyFirst(hash: seq<byte> -> string, s: S, key: PubKey, before: seq<Cipher>, priv: nat, now: int)
    requires AwaitsKey(s)
    ensures Feed(hash, s, Frames(before) + [PubFrame(key)], priv, now)
         == Feed(hash, s, [PubFrame(key)] + Frames(before), priv, now)
  {
    var pub := [PubFrame(key)];
    var held := s.(hs := s.hs.(buffer := s.hs.buffer + before));
    FeedAppend(hash, s, Frames(before), pub, priv, now);
    FramesAreBuffered(hash, s, before, priv, now);
    FeedOne(hash, held, PubFrame(key), priv, now);
    FeedAppend(hash, s, pub, Frames(before), priv, now);
    FeedOne(hash, s, PubFrame(key), priv, now);
    KeyMeetsBuffer(hash, s, key, before, priv, now);
  }

  /** What arrived before the key is replayed as if it arrived after it. */
  lemma KeyMeetsBuffer(hash: seq<byte> -> string, s: S, key: PubKey, before: seq<Cipher>, priv: nat, now: int)
    requires AwaitsKey(s)
    ensures var held := s.(hs := s.hs.(buffer := s.hs.buffer + before));
            (Settle(hash, HandleEvent(held, DataText(PubFrame(key)), now), priv, now)
             == Feed(hash, Settle(hash, HandleEvent(s, DataText(PubFrame(key)), now), priv, now), Frames(before), priv, now))
  {
    var held := s.(hs := s.hs.(buffer := s.hs.buffer + before));
    KeyArrives(hash, s, key, priv, now);
    KeyArrives(hash, held, key, priv, now);
    if key.BadPub? || !s.dataOpen {
      FailIgnoresHandshake(s, held.hs, KeyConfirmFailed);
      FailedStays(hash, s, before, priv, now);
    } else {
      ConfirmingIgnoresBuffer(s, held.hs.buffer, key.n);
      ReplayInTwoParts(hash, Confirming(s, key.n), s.hs.buffer, before, priv, now);
    }
  }

  lemma FailedStays(hash: seq<byte> -> string, s: S, ciphers: seq<Cipher>, priv: nat, now: int)
    requires AwaitsKey(s)
    ensures FailHandshake(s, KeyConfirmFailed).handler == Idle
    ensures Feed(hash, FailHandshake(s, KeyConfirmFailed), Frames(ciphers), priv, now) == FailHandshake(s, KeyConfirmFailed)
  {
    FeedEnded(hash, FailHandshake(s, KeyConfirmFailed), Frames(ciphers), priv, now);
  }

  lemma ConfirmingIgnoresBuffer(s: S, buffer: seq<Cipher>, peer: nat)
    requires AwaitsKey(s)
    ensures Confirming(s.(hs := s.hs.(buffer := buffer)), peer) == Confirming(s, peer)
    ensures Keyed(Confirming(s, peer))
  {
  }

  lemma ReplayInTwoParts(hash: seq<byte> -> string, c: S, first: seq<Cipher>, second: seq<Cipher>, priv: nat, now: int)
    requires Keyed(c)
    ensures Settle(hash, NextBuffered(c, first + second), priv, now)
         == Feed(hash, Settle(hash, NextBuffered(c, first), priv, now), Frames(second), priv, now)
  {
    ReplayIsFeed(hash, c, first + second, priv, now);
    ReplayIsFeed(hash, c, first, priv, now);
    FramesAppend(first, second);
    FeedAppend(hash, c, Frames(first), Frames(second), priv, now);
  }
}
