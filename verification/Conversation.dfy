/** What one side says the other hears: the texts a secure session sends, opened by a
    session that is secure under the same key; and what a session hears while it is
    not yet confirmed, or cannot open. */
module Conversation {
  import opened Wrappers
  import opened Protocol
  import opened Base64url
  import opened Wire
  import opened FileTransfer
  import opened TransferTheorems
  import opened Session
  import opened SendDiscipline
  import opened SessionReceives
  import opened SessionSends

  /** The session at `now` after the text arrived and its handler ran on until idle. */
  function Heard(hash: seq<byte> -> string, r: S, frame: TextFrame, now: int): S {
    var r1 := HandleEvent(r, DataText(frame), now);
    if r1.handler.Busy? then ResumeHandler(hash, r1, 0, now) else r1
  }

  /** What the user is told of a payload. */
  function News(p: Message, now: int): Option<Event> {
    match p
    case Identity(name) => Some(PeerIdentity(name))
    case Chat(id, text) => Some(ChatFrom(text, now, id))
    case Delivered(id) => Some(DeliveredTo(id))
    case Typing(active) => Some(PeerTyping(active))
    case FileReceived(id) => Some(FileArrived(id))
    case _ => None
  }

  /** The one text that says it. */
  function Saying(s: S, p: Message): TextFrame
    requires s.hs.key.Some?
  {
    SealedFrame(Sealed(s.hs.key.value, p))
  }

  lemma OpenedOnce(hash: seq<byte> -> string, r: S, key: Key, p: Message, now: int)
    requires Ready(r, key) && !p.FileDone? && HandlePayload(r, p, now).handler == Idle
    ensures Heard(hash, r, SealedFrame(Sealed(key, p)), now) == HandlePayload(r, p, now)
  {
    hide HandlePayload, ResumeHandler, AfterDecrypt, FailHandshake;
    var r1 := r.(handler := Busy(Decrypting(key, Sealed(key, p), [])));
    assert HandleEvent(r, DataText(SealedFrame(Sealed(key, p))), now) == r1;
    assert r1.(handler := Idle) == r;
    ResumesDecrypting(hash, r1, 0, now);
    DecryptedHandled(r1, key, p, now);
  }

  lemma ResumesDecrypting(hash: seq<byte> -> string, s: S, priv: nat, now: int)
    requires s.handler.Busy? && s.handler.aw.Decrypting?
    ensures ResumeHandler(hash, s, priv, now) == AfterDecrypt(s, s.handler.aw.key, s.handler.aw.cipher, s.handler.aw.rest, now)
  {
    hide AfterDecrypt;
  }

  lemma DecryptedHandled(s: S, key: Key, p: Message, now: int)
    requires !p.FileDone? && HandlePayload(s.(handler := Idle), p, now).handler == Idle
    ensures AfterDecrypt(s, key, Sealed(key, p), [], now) == HandlePayload(s.(handler := Idle), p, now)
  {
    hide HandlePayload, FailHandshake;
    assert NextBuffered(HandlePayload(s.(handler := Idle), p, now), []) == HandlePayload(s.(handler := Idle), p, now);
  }

  /** A chat, a typing signal, a name or an acknowledgement sent by a session that can
      send goes out as one text under its key; a session secure under that key tells its
      user exactly this, once, and an acknowledged file is awaited no longer. Nothing
      else changes on either side. */
  lemma SaidIsHeard(hash: seq<byte> -> string, s: S, r: S, p: Message, now: int)
    requires CanSend(s) && Ready(r, s.hs.key.value) && News(p, now).Some?
    ensures SendApp(s, p) == s.(log := s.log + [SendText(Saying(s, p))])
    ensures var h := Heard(hash, r, Saying(s, p), now);
            h == r.(log := r.log + [Emit(News(p, now).value)],
                    x := if p.FileReceived? && r.x.pendingAck == Some(p.id) then r.x.(pendingAck := None) else r.x)
  {
    OpenedOnce(hash, r, s.hs.key.value, p, now);
  }

  predicate EndsWith(log: Log, last: Log) {
    |log| >= |last| && log[|log| - |last|..] == last
  }

  /** end() on a secure session: it is over here at once; the "end" goes out before the
      room is left, if the channel is still open, and ends the other side as the peer's
      doing. */
  lemma EndIsHeard(hash: seq<byte> -> string, s: S, r: S, now: int)
    requires CanSend(s) && Ready(r, s.hs.key.value)
    ensures var e := EndSession(s);
            && e.status == Ended && e.dataOpen
            && EndTail(e).log == e.log + [SendText(Saying(s, Payload.End)), LeaveRoom]
    ensures var h := Heard(hash, r, Saying(s, Payload.End), now);
            h.status == Ended && h.closed && EndsWith(h.log, [Emit(StatusIs(Ended)), Emit(HasEnded(ByPeer))])
  {
    hide HandleEvent, HandlePayload;
    EndedStaysOpen(s);
    EndsByPeer(r, now);
    OpenedOnce(hash, r, s.hs.key.value, Payload.End, now);
  }

  lemma EndedStaysOpen(s: S)
    requires CanSend(s)
    ensures var e := EndSession(s); e.status == Ended && e.dataOpen && e.tail == s.hs.key
  {
  }

  lemma EndsByPeer(r: S, now: int)
    requires r.status == Secure && r.hs.verified && r.handler == Idle
    ensures var h := HandlePayload(r, Payload.End, now);
            && h.status == Ended && h.closed && h.handler == Idle
            && EndsWith(h.log, [Emit(StatusIs(Ended)), Emit(HasEnded(ByPeer))])
  {
    var before := ResetHandshake(r.(timers := ClearGrace(r.timers))).log;
    assert FinishSession(r, ByPeer, true).log == before + [Emit(StatusIs(Ended)), Emit(HasEnded(ByPeer))];
  }

  /** A channel that closed before the "end" could be sealed: the room is left all the same. */
  lemma EndUnsaid(s: S)
    requires s.tail.Some? && !s.dataOpen
    ensures EndTail(s).log == s.log + [LeaveRoom] && EndTail(s).closed && EndTail(s).tail.None?
  {
    assert s.log + [] == s.log;
  }

  // ---- what is not heard ----

  /** While unconfirmed, whatever opens but a key-confirm is dropped; so is, once confirmed,
      what does not open. Only the handler goes on, to the next frame it has kept. */
  lemma UnconfirmedHearsNothing(hash: seq<byte> -> string, s: S, priv: nat, now: int)
    requires s.handler.Busy? && s.handler.aw.Decrypting?
    requires var p := Decrypt(s.handler.aw.key, s.handler.aw.cipher);
             if s.hs.verified then p.None? else p.Some? && !p.value.KeyConfirm?
    ensures var r := ResumeHandler(hash, s, priv, now);
            var rest := s.handler.aw.rest;
            && r == s.(handler := r.handler)
            && (r.handler.Idle? <==> rest == [] || s.hs.key.None?)
            && (r.handler.Busy? ==> r.handler.aw == Decrypting(s.hs.key.value, rest[0], rest[1..]))
  {
    hide AfterDecrypt, FailHandshake;
    ResumesDecrypting(hash, s, priv, now);
    DroppedPayload(s, now);
  }

  lemma DroppedPayload(s: S, now: int)
    requires s.handler.Busy? && s.handler.aw.Decrypting?
    requires var p := Decrypt(s.handler.aw.key, s.handler.aw.cipher);
             if s.hs.verified then p.None? else p.Some? && !p.value.KeyConfirm?
    ensures AfterDecrypt(s, s.handler.aw.key, s.handler.aw.cipher, s.handler.aw.rest, now) ==
            NextBuffered(s.(handler := Idle), s.handler.aw.rest)
  {
    hide FailHandshake, NextBuffered;
  }

  /** A second public key, or one that comes before the own key pair is there, is ignored;
      a binary frame too, while unconfirmed or with nothing being received. */
  lemma StrayFrameIgnored(s: S, e: TransportEvent, now: int)
    requires s.handler == Idle
    requires || (e.DataText? && e.frame.PubFrame? && (s.hs.keyPair.None? || s.hs.key.Some?))
             || (e.DataBinary? && (s.x.receive.None? || !s.hs.verified))
    ensures HandleEvent(s, e, now) == s
  {
  }

  // ---- a file and what comes back ----

  /** After a file arrived whole, the receiver's acknowledgement settles it at the sender:
      its user is told that it arrived, and nothing is awaited. */
  lemma FileIsAcknowledged(hash: seq<byte> -> string, s: S, r: S, src: Source, buffered: seq<int>, now: int)
    requires CanStart(s, src) && |buffered| >= 2 * ChunkCountFor(|src.bytes|) + 6
    requires Sendable(src) && src.sha256 == hash(src.bytes)
    requires Ready(s, s.hs.key.value) && Ready(r, s.hs.key.value) && r.x.receive.None?
    ensures var key := s.hs.key.value;
            var t := Turns(SendFile(s, src), s.x.nextLoop, buffered);
            && t.x.pendingAck == Some(src.id)
            && s.log <= t.log
            && var r' := Reaches(hash, r, t.log[|s.log|..]);
               && Ready(r', key) && Emit(FileComplete(src.id, src.bytes)) in r'.log
               && var h := Heard(hash, t, Saying(r', FileReceived(src.id)), now);
                  && h.x == t.x.(pendingAck := None)
                  && h.log == t.log + [Emit(FileArrived(src.id))]
  {
    hide Turns, SendFile, Reaches, Heard;
    FileArrives(hash, s, r, src, buffered);
    SessionSendsFile(s, src, buffered);
    var t := Turns(SendFile(s, src), s.x.nextLoop, buffered);
    AckHeard(hash, t, s.hs.key.value, src.id, now);
  }

  lemma AckHeard(hash: seq<byte> -> string, t: S, key: Key, id: string, now: int)
    requires Ready(t, key) && t.x.pendingAck == Some(id)
    ensures var h := Heard(hash, t, SealedFrame(Sealed(key, FileReceived(id))), now);
            h.x == t.x.(pendingAck := None) && h.log == t.log + [Emit(FileArrived(id))]
  {
    OpenedOnce(hash, t, key, FileReceived(id), now);
  }
}
