/** Two sessions that share a fragment secret, over an in-order channel. */
module HandshakeAgreement {
  import opened Wrappers
  import opened Base64url
  import opened Wire
  import opened FileTransfer
  import opened Session
  import opened LoopSteps
  import opened Reachability
  import opened SessionInvariants
  import opened SendDiscipline
  import opened KeyChange

  /** One end: the messages it has sent since its channel opened, texts and
      binary chunks alike, and how many of the other end's it was given. */
  datatype Side = Side(s: S, up: bool, sent: Log, got: nat)

  datatype World = World(a: Side, b: Side)

  /** The last four are the steps of file transfer. */
  datatype Act =
    | Opens(now: int)
    | Receives(now: int)
    | RunsOn(priv: nat, now: int)
    | Says(payload: Message)
    | Offers(src: Source)
    | Cancels(id: string)
    | LoopGoes(loop: nat, readOk: bool, buffered: int)
    | Drains

  predicate IsData(e: Entry) {
    e.SendText? || e.SendBinary?
  }

  /** What of a log goes over the channel. */
  function Data(log: Log): (r: Log)
    ensures |r| <= |log|
  {
    if log == [] then []
    else Data(log[..|log| - 1]) + if IsData(log[|log| - 1]) then [log[|log| - 1]] else []
  }

  function Appended(before: Log, after: Log): Log {
    if |before| <= |after| then after[|before|..] else []
  }

  predicate CanAct(x: Side, y: Side, act: Act) {
    match act
    case Opens(_) => !x.up
    case Receives(_) => x.up && x.s.handler == Idle && x.got < |y.sent| && IsData(y.sent[x.got])
    case RunsOn(_, _) => x.s.handler.Busy?
    case Says(p) => IsApp(p)
    case Offers(src) => src.id !in x.s.x.returned
    case LoopGoes(loop, _, _) => LoopCanRun(x.s, loop)
    case _ => true
  }

  function Moved(x: Side, s: S): Side {
    x.(s := s, sent := x.sent + Data(Appended(x.s.log, s.log)))
  }

  function Arrival(e: Entry): TransportEvent
    requires IsData(e)
  {
    if e.SendText? then DataText(e.frame) else DataBinary(e.chunk)
  }

  /** `x` acts; `y` is the other end. */
  function Acts(hash: seq<byte> -> string, x: Side, y: Side, act: Act): Side
    requires CanAct(x, y, act)
  {
    match act
    case Opens(now) => Moved(x, HandleEvent(x.s, DataOpened, now)).(up := true)
    case Receives(now) => Moved(x, HandleEvent(x.s, Arrival(y.sent[x.got]), now)).(got := x.got + 1)
    case RunsOn(priv, now) => Moved(x, ResumeHandler(hash, x.s, priv, now))
    case Says(p) => Moved(x, SendApp(x.s, p))
    case Offers(src) => Moved(x, SendFile(x.s, src))
    case Cancels(id) => Moved(x, CancelFile(x.s, id))
    case LoopGoes(loop, readOk, buffered) => Moved(x, LoopRuns(x.s, loop, readOk, buffered))
    case Drains => Moved(x, BufferLow(x.s))
  }

  // ---- the invariant ----

  predicate HasKeyFrame(y: Side) {
    |y.sent| > 0 && y.sent[0].SendText? && y.sent[0].frame.PubFrame? && y.sent[0].frame.key.Pub?
  }

  /** The peer's key as it went over the channel. */
  function KeyOf(y: Side): nat {
    if HasKeyFrame(y) then y.sent[0].frame.key.n else 0
  }

  /** Own key pair in place and sent, nothing derived yet. */
  predicate KeyIsOut(x: Side) {
    && x.s.status == Securing
    && x.s.hs.keyPair.Some? && x.s.hs.myPub == x.s.hs.keyPair
    && x.sent == [SendText(PubFrame(Pub(x.s.hs.keyPair.value)))]
    && !x.s.hs.verified && x.s.hs.buffer == []
  }

  predicate Importing1(x: Side, y: Side) {
    KeyIsOut(x) && x.got == 1 && HasKeyFrame(y)
  }

  function SharedWith(x: Side, y: Side): SharedSecret {
    DH(KeyOf(x), KeyOf(y))
  }

  predicate HasKey(x: Side, y: Side) {
    x.s.hs.key == Some(Key(x.s.secret, SharedWith(x, y)))
  }

  predicate HasCode(x: Side, y: Side) {
    x.s.hs.code == Some(SafetyCode(x.s.secret, SharedWith(x, y)))
  }

  function TranscriptWith(x: Side, y: Side): Transcript {
    TranscriptOf(Some(KeyOf(x)), KeyOf(y))
  }

  /** Key confirmed to the peer: the key frame, one key-confirm, then only
      application payloads under the session key. */
  predicate Confirmed(x: Side, y: Side) {
    && x.s.hs.buffer == [] && HasKeyFrame(x) && HasKeyFrame(y)
    && HasKey(x, y) && HasCode(x, y) && x.s.hs.expected == Some(TranscriptWith(x, y))
    && |x.sent| >= 2
    && x.sent[1] == SendText(SealedFrame(Sealed(Key(x.s.secret, SharedWith(x, y)), KeyConfirm(TranscriptWith(x, y)))))
    && forall i :: 2 <= i < |x.sent| ==> IsLate(x.sent[i], Some(Key(x.s.secret, SharedWith(x, y))))
  }

  /** A chunk, or a text sealed under `key` that is neither a key-confirm nor an end. */
  predicate IsLate(e: Entry, key: Option<Key>) {
    match e
    case SendText(SealedFrame(Sealed(k, p))) => key == Some(k) && !p.KeyConfirm? && !p.End?
    case SendBinary(SealedChunk(_, _, _, _)) => true
    case _ => false
  }

  /** Whatever control frame is under way is sealed under `key`; while there is
      none, nothing can go out. */
  predicate LoopsUnder(x: Transfers, key: Option<Key>) {
    forall id :: id in x.loops ==> LoopUnder(x.loops[id], key)
  }

  predicate LoopUnder(l: Loop, key: Option<Key>) {
    l.Running? ==>
      && (IsControl(l.job.at) ==> key.Some? && l.ctl == key)
      && (key.None? && (l.job.at.Draining? || l.job.at.Encrypting?) ==> l.job.stopped.Some?)
  }

  /** A control frame of the transfer is being encrypted. */
  predicate IsControl(at: Point) {
    at.Offering? || at.Finishing?
  }

  function SendKey(s: S): Option<Key> {
    if s.status == Secure then s.hs.key else None
  }

  predicate SecureIff(x: Side, secure: bool) {
    if secure then x.s.status == Secure && x.s.hs.verified else x.s.status == Securing && !x.s.hs.verified
  }

  predicate SideOk(x: Side, y: Side) {
    && x.s.dataOpen && x.s.status != Ended && x.got <= |y.sent| && LoopsUnder(x.s.x, SendKey(x.s))
    && if !x.up then x.s.handler == Idle && x.sent == [] && x.got == 0 && x.s.status != Secure
       else
         match x.s.handler
         case Idle =>
           if x.s.hs.key.None? then KeyIsOut(x) && x.got == 0
           else Confirmed(x, y) && x.got >= 1 && SecureIff(x, x.got >= 2) && (x.got == 1 ==> |x.sent| == 2)
         case Busy(aw) =>
           match aw
           case Generating => x.s.status == Securing && x.s.hs == NO_HANDSHAKE && x.sent == [] && x.got == 0
           case Exporting(mine) =>
             x.s.status == Securing && x.s.hs == NO_HANDSHAKE.(keyPair := Some(mine)) && x.sent == [] && x.got == 0
           case Importing(key) => Importing1(x, y) && key == Pub(KeyOf(y)) && x.s.hs.key.None?
           case Sharing(peer, shared) => Importing1(x, y) && peer == KeyOf(y) && shared == SharedWith(x, y) && x.s.hs.key.None?
           case DerivingKey(peer, shared) => Importing1(x, y) && peer == KeyOf(y) && shared == SharedWith(x, y) && x.s.hs.key.None?
           case DerivingCode(peer, shared) => Importing1(x, y) && peer == KeyOf(y) && shared == SharedWith(x, y) && HasKey(x, y)
           case HashingTranscript(t) => Importing1(x, y) && t == TranscriptWith(x, y) && HasKey(x, y) && HasCode(x, y)
           case SealingConfirm(key, t) =>
             && Importing1(x, y) && t == TranscriptWith(x, y) && x.s.hs.expected == Some(t)
             && HasKey(x, y) && HasCode(x, y) && x.s.hs.key == Some(key)
           case Decrypting(key, cipher, rest) =>
             && Confirmed(x, y) && rest == [] && x.s.hs.key == Some(key)
             && x.got >= 2 && y.sent[x.got - 1] == SendText(SealedFrame(cipher)) && SecureIff(x, x.got >= 3)
             && (x.got == 2 ==> |x.sent| == 2)
           case FinishingFile(_, _, rest) => Confirmed(x, y) && rest == [] && x.got >= 3 && SecureIff(x, true)
           case AcceptingChunk(_, frame) => Confirmed(x, y) && !frame.OtherBinaryVersion? && x.got >= 3 && SecureIff(x, true)
  }

  predicate WorldOk(w: World) {
    SideOk(w.a, w.b) && SideOk(w.b, w.a) && w.a.s.secret == w.b.s.secret
  }

  /** Own steps left until secure. */
  function Rank(x: Side): nat {
    if !x.up then 12
    else match x.s.handler
      case Idle => if x.s.status == Secure then 0 else if x.s.hs.key.Some? then 2 else 9
      case Busy(aw) =>
        match aw
        case Generating => 11
        case Exporting(_) => 10
        case Importing(_) => 8
        case Sharing(_, _) => 7
        case DerivingKey(_, _) => 6
        case DerivingCode(_, _) => 5
        case HashingTranscript(_) => 4
        case SealingConfirm(_, _) => 3
        case _ => if x.s.status == Secure then 0 else 1
  }

  // ---- what a step sends ----

  lemma {:induction false} NoData(log: Log)
    requires forall i :: 0 <= i < |log| ==> !IsData(log[i])
    ensures Data(log) == []
  {
    if log != [] {
      NoData(log[..|log| - 1]);
    }
  }

  lemma OneText(before: Log, frame: TextFrame)
    ensures Data(Appended(before, before + [SendText(frame)])) == [SendText(frame)]
  {
    var log := Appended(before, before + [SendText(frame)]);
    assert log == [SendText(frame)] && log[..0] == [];
    assert Data(log[..0]) == [];
  }

  /** `after` extends `before` with nothing for the channel. */
  predicate Silently(before: Log, after: Log) {
    before <= after && forall i :: |before| <= i < |after| ==> !IsData(after[i])
  }

  lemma SilentSide(x: Side, s: S)
    requires Silently(x.s.log, s.log)
    ensures Moved(x, s).sent == x.sent
  {
    NoData(Appended(x.s.log, s.log));
  }

  lemma FailAllIsSilent(s: S)
    ensures Silently(s.log, FailAllTransfers(s).log)
  {
  }

  lemma StopKeepsUnder(x: Transfers, reason: FailReason, key: Option<Key>)
    requires LoopsUnder(x, key)
    ensures LoopsUnder(StopActive(x, reason), key)
  {
  }

  lemma OpeningIsSilent(s: S, now: int)
    requires s.status != Ended && LoopsUnder(s.x, None)
    ensures Silently(s.log, HandleEvent(s, DataOpened, now).log) && LoopsUnder(HandleEvent(s, DataOpened, now).x, None)
  {
    var s1 := SetStatus(s.(timers := ClearGrace(s.timers)), Securing);
    FailAllIsSilent(s1);
    StopKeepsUnder(s1.x, Disconnected, None);
    assert HandleEvent(s, DataOpened, now).log == FailAllTransfers(s1).log;
  }

  lemma CancelIsSilent(s: S, id: string, reason: CancelReason, key: Option<Key>)
    requires LoopsUnder(s.x, key)
    ensures Silently(s.log, HandleFileCancel(s, id, reason).log) && LoopsUnder(HandleFileCancel(s, id, reason).x, key)
  {
    if ActiveId(s.x) == Some(id) {
      StopKeepsUnder(s.x, CancelReasonOf(reason), key);
    } else {
      CancelKeepsLoops(s, id, reason);
    }
  }

  lemma CancelKeepsLoops(s: S, id: string, reason: CancelReason)
    requires ActiveId(s.x) != Some(id)
    ensures var r := HandleFileCancel(s, id, reason); r.x.loops == s.x.loops && Silently(s.log, r.log)
  {
    FailReceiveIsSilent(s, id, CancelReasonOf(reason));
    CancelAckIsSilent(s, id, CancelReasonOf(reason));
  }

  lemma FailReceiveIsSilent(s: S, id: string, reason: FailReason)
    ensures var r := FailReceive(s, id, reason); r.x.loops == s.x.loops && Silently(s.log, r.log)
  {
  }

  lemma CancelAckIsSilent(s: S, id: string, reason: FailReason)
    ensures var r := CancelPendingAck(s, id, reason); r.x.loops == s.x.loops && Silently(s.log, r.log)
  {
  }

  lemma SayingIsSilent(s: S, e: Event)
    ensures Silently(s.log, Emits(s, e).log)
  {
  }

  lemma NewsIsSilent(s: S, p: Message, now: int)
    requires p.Identity? || p.Chat? || p.Delivered? || p.Typing? || p.FileReceived? || p.Offer?
    ensures var r := HandlePayload(s, p, now); r.x.loops == s.x.loops && Silently(s.log, r.log)
  {
    match p {
      case Identity(name) => SayingIsSilent(s, PeerIdentity(name));
      case Chat(id, text) => SayingIsSilent(s, ChatFrom(text, now, id));
      case Delivered(id) => SayingIsSilent(s, DeliveredTo(id));
      case Typing(active) => SayingIsSilent(s, PeerTyping(active));
      case FileReceived(id) => ReceivedIsSilent(s, id);
      case Offer(o) => OfferIsSilent(s, o);
    }
  }

  lemma ReceivedIsSilent(s: S, id: string)
    ensures var r := HandleFileReceived(s, id); r.x.loops == s.x.loops && Silently(s.log, r.log)
  {
  }

  lemma OfferIsSilent(s: S, o: FileOffer)
    ensures var r := HandleOffer(s, o); r.x.loops == s.x.loops && Silently(s.log, r.log)
  {
  }

  lemma PayloadIsSilent(s: S, p: Message, now: int, key: Option<Key>)
    requires !p.KeyConfirm? && !p.End? && !p.FileDone? && LoopsUnder(s.x, key)
    ensures Silently(s.log, HandlePayload(s, p, now).log) && LoopsUnder(HandlePayload(s, p, now).x, key)
  {
    if p.FileCancel? {
      CancelIsSilent(s, p.id, p.reason, key);
    } else {
      NewsIsSilent(s, p, now);
    }
  }

  // ---- what file transfer sends ----

  /** An entry is not for the channel, or is a chunk or sealed under `key`. */
  predicate IsLateOrSilent(e: Entry, key: Option<Key>) {
    IsData(e) ==> key.Some? && IsLate(e, key)
  }

  lemma {:induction false} LateData(log: Log, key: Option<Key>)
    requires forall i :: 0 <= i < |log| ==> IsLateOrSilent(log[i], key)
    ensures forall i :: 0 <= i < |Data(log)| ==> key.Some? && IsLate(Data(log)[i], key)
    ensures key.None? ==> Data(log) == []
  {
    if log == [] {
      assert Data(log) == [];
    } else {
      var front, last := log[..|log| - 1], log[|log| - 1];
      LateData(front, key);
      assert IsLateOrSilent(last, key);
      if IsData(last) {
        assert Data(log) == Data(front) + [last];
      } else {
        assert Data(log) == Data(front);
      }
    }
  }

  function UnderLoops(key: Option<Key>): LoopProperty {
    (l: Loop) => LoopUnder(l, key)
  }

  function LateEntries(key: Option<Key>): EntryProperty {
    (e: Entry) => IsLateOrSilent(e, key)
  }

  lemma RanOnUnder(s: S, l: Loop, buffered: int)
    requires LoopUnder(l, SendKey(s)) && JobCanRun(l)
    ensures LoopUnder(RanOn(s, l, buffered), SendKey(s))
    ensures forall e :: e in RanLog(s, l, buffered) ==> IsLateOrSilent(e, SendKey(s))
  {
  }

  lemma UnderSurvives(s: S)
    ensures Survives(s, UnderLoops(SendKey(s)), AnyQueued(), LateEntries(SendKey(s)))
  {
    forall l: Loop, reason | LoopUnder(l, SendKey(s)) && l.Running? ensures LoopUnder(Told(l, reason), SendKey(s)) {
    }
    forall l, buffered | LoopUnder(l, SendKey(s)) && JobCanRun(l)
      ensures LoopUnder(RanOn(s, l, buffered), SendKey(s))
      ensures forall e :: e in RanLog(s, l, buffered) ==> IsLateOrSilent(e, SendKey(s))
    {
      RanOnUnder(s, l, buffered);
    }
  }

  /** A step of file transfer puts nothing on the channel but chunks and what is
      sealed under the session key, and nothing at all without one. */
  lemma QueueStepUnder(hash: seq<byte> -> string, s: S, a: Action)
    requires LoopsUnder(s.x, SendKey(s)) && Enabled(s, a) && IsQueueStep(a)
    ensures LoopsUnder(Next(hash, s, a).x, SendKey(s))
    ensures Logs(s.log, Next(hash, s, a).log, LateEntries(SendKey(s)))
  {
    UnderSurvives(s);
    QueueStepKeeps(hash, s, a, UnderLoops(SendKey(s)), AnyQueued(), LateEntries(SendKey(s)));
    var x := Next(hash, s, a).x;
    forall id | id in x.loops ensures LoopUnder(x.loops[id], SendKey(s)) {
      assert UnderLoops(SendKey(s))(x.loops[id]);
    }
  }

  // ---- the peer's view of a side that moves ----

  /** Everything `SideOk(y, x)` reads of `x` survives when `x` sends more. */
  lemma PeerStaysOk(y: Side, x: Side, x': Side)
    requires SideOk(y, x) && x.sent <= x'.sent
    ensures SideOk(y, x')
  {
    if y.got >= 1 || x.sent != [] {
      assert x'.sent[0] == x.sent[0];
    }
  }

  lemma PeerKeyFrame(x: Side, y: Side)
    requires SideOk(y, x) && |y.sent| > 0
    ensures HasKeyFrame(y)
    ensures |y.sent| > 1 ==> Confirmed(y, x)
  {
  }

  lemma Symmetric(x: Side, y: Side)
    ensures SharedWith(x, y) == SharedWith(y, x) && TranscriptWith(x, y) == TranscriptWith(y, x)
  {
  }

  // ---- steps ----

  /** `x` became `x'` and is `closer` steps closer to secure. */
  predicate Stepped(x: Side, x': Side, y: Side, closer: nat) {
    SideOk(x', y) && x.sent <= x'.sent && x'.s.secret == x.s.secret && Rank(x) == Rank(x') + closer
  }

  lemma OpensOk(hash: seq<byte> -> string, x: Side, y: Side, now: int)
    requires SideOk(x, y) && !x.up
    ensures var x' := Acts(hash, x, y, Opens(now)); Stepped(x, x', y, 1)
  {
    OpeningIsSilent(x.s, now);
    SilentSide(x, HandleEvent(x.s, DataOpened, now));
  }

  lemma GeneratesOk(hash: seq<byte> -> string, x: Side, y: Side, priv: nat, now: int)
    requires SideOk(x, y) && x.up && x.s.handler == Busy(Generating)
    ensures var x' := Acts(hash, x, y, RunsOn(priv, now)); Stepped(x, x', y, 1)
  {
    SilentSide(x, ResumeHandler(hash, x.s, priv, now));
  }

  lemma ExportSends(s: S, mine: nat)
    requires s.dataOpen
    ensures var r := AfterExport(s, mine);
            && r.log == s.log + [SendText(PubFrame(Pub(mine)))] && r.handler == Idle && r.x == s.x
            && r == s.(hs := s.hs.(myPub := Some(mine)), handler := Idle, timers := r.timers, log := r.log)
  {
  }

  lemma ExportsOk(hash: seq<byte> -> string, x: Side, y: Side, mine: nat, priv: nat, now: int)
    requires SideOk(x, y) && x.up && x.s.handler == Busy(Exporting(mine))
    ensures var x' := Acts(hash, x, y, RunsOn(priv, now)); Stepped(x, x', y, 1)
  {
    ExportSends(x.s, mine);
    OneText(x.s.log, PubFrame(Pub(mine)));
  }

  lemma ReceivesKeyOk(hash: seq<byte> -> string, x: Side, y: Side, now: int)
    requires SideOk(x, y) && SideOk(y, x) && x.up && x.s.handler == Idle && x.s.hs.key.None? && |y.sent| > 0
    ensures var x' := Acts(hash, x, y, Receives(now)); Stepped(x, x', y, 1)
  {
    PeerKeyFrame(x, y);
    SilentSide(x, HandleEvent(x.s, Arrival(y.sent[0]), now));
  }

  lemma ImportsOk(hash: seq<byte> -> string, x: Side, y: Side, priv: nat, now: int)
    requires SideOk(x, y) && x.up && x.s.handler.Busy? && x.s.handler.aw.Importing?
    ensures var x' := Acts(hash, x, y, RunsOn(priv, now)); Stepped(x, x', y, 1)
  {
    SilentSide(x, ResumeHandler(hash, x.s, priv, now));
  }

  lemma DerivesOk(hash: seq<byte> -> string, x: Side, y: Side, priv: nat, now: int)
    requires SideOk(x, y) && x.up && x.s.handler.Busy?
    requires var aw := x.s.handler.aw; aw.Sharing? || aw.DerivingKey? || aw.DerivingCode? || aw.HashingTranscript?
    ensures var x' := Acts(hash, x, y, RunsOn(priv, now)); Stepped(x, x', y, 1)
  {
    SilentSide(x, ResumeHandler(hash, x.s, priv, now));
  }

  lemma SealsOk(hash: seq<byte> -> string, x: Side, y: Side, priv: nat, now: int)
    requires SideOk(x, y) && x.up && x.s.handler.Busy? && x.s.handler.aw.SealingConfirm?
    ensures var x' := Acts(hash, x, y, RunsOn(priv, now)); Stepped(x, x', y, 1)
  {
    OneText(x.s.log, SealedFrame(Sealed(x.s.handler.aw.key, KeyConfirm(x.s.handler.aw.transcript))));
  }

  lemma MovedInSilence(x: Side, s: S)
    requires s.log == x.s.log
    ensures Moved(x, s) == x.(s := s)
  {
    SilentSide(x, s);
  }

  lemma TakesUp(s: S, cipher: Cipher, now: int)
    requires s.status != Ended && s.hs.key.Some?
    ensures HandleEvent(s, DataText(SealedFrame(cipher)), now) == s.(handler := Busy(Decrypting(s.hs.key.value, cipher, [])))
  {
  }

  lemma ReceivesSealedOk(hash: seq<byte> -> string, x: Side, y: Side, now: int)
    requires SideOk(x, y) && SideOk(y, x) && x.up && x.s.handler == Idle && x.s.hs.key.Some?
    requires x.got < |y.sent| && y.sent[x.got].SendText? && y.sent[x.got].frame.SealedFrame?
    ensures var x' := Acts(hash, x, y, Receives(now)); Stepped(x, x', y, if Rank(x) > 0 then 1 else 0)
  {
    var cipher := y.sent[x.got].frame.cipher;
    TakesUp(x.s, cipher, now);
    MovedInSilence(x, x.s.(handler := Busy(Decrypting(x.s.hs.key.value, cipher, []))));
  }

  lemma ReceivesChunkOk(hash: seq<byte> -> string, x: Side, y: Side, now: int)
    requires SideOk(x, y) && x.up && x.s.handler == Idle && x.s.hs.key.Some? && x.s.status == Secure
    requires x.got < |y.sent| && y.sent[x.got].SendBinary? && !y.sent[x.got].chunk.OtherBinaryVersion?
    ensures var x' := Acts(hash, x, y, Receives(now)); Stepped(x, x', y, 0)
  {
    SilentSide(x, HandleEvent(x.s, Arrival(y.sent[x.got]), now));
  }

  /** Past the public key only sealed texts and chunks arrive, chunks only after
      the key-confirm. */
  lemma LateArrival(x: Side, y: Side)
    requires SideOk(x, y) && SideOk(y, x) && x.up && x.s.handler == Idle && x.s.hs.key.Some? && x.got < |y.sent|
    ensures y.sent[x.got].SendText? ==> y.sent[x.got].frame.SealedFrame?
    ensures y.sent[x.got].SendBinary? ==> !y.sent[x.got].chunk.OtherBinaryVersion? && x.s.status == Secure && Rank(x) == 0
  {
    PeerKeyFrame(x, y);
    if x.got >= 2 {
      assert IsLate(y.sent[x.got], Some(Key(y.s.secret, SharedWith(y, x))));
    }
  }

  lemma ReceivesLateOk(hash: seq<byte> -> string, x: Side, y: Side, now: int)
    requires SideOk(x, y) && SideOk(y, x)
    requires x.up && x.s.handler == Idle && x.s.hs.key.Some? && x.got < |y.sent| && IsData(y.sent[x.got])
    ensures var x' := Acts(hash, x, y, Receives(now)); Stepped(x, x', y, if Rank(x) > 0 then 1 else 0)
  {
    LateArrival(x, y);
    if y.sent[x.got].SendText? {
      ReceivesSealedOk(hash, x, y, now);
    } else {
      ReceivesChunkOk(hash, x, y, now);
    }
  }

  lemma OpensConfirmOk(hash: seq<byte> -> string, x: Side, y: Side, priv: nat, now: int)
    requires SideOk(x, y) && SideOk(y, x) && x.s.secret == y.s.secret
    requires x.up && x.s.handler.Busy? && x.s.handler.aw.Decrypting? && x.got == 2
    ensures var x' := Acts(hash, x, y, RunsOn(priv, now));
            Stepped(x, x', y, 1)
  {
    ConfirmIsExpected(x, y);
    OpensItsConfirm(x.s, now);
    SilentSide(x, Secured(x.s.(handler := Idle)));
  }

  /** The second text is the key-confirm the side would send itself. */
  lemma ConfirmIsExpected(x: Side, y: Side)
    requires SideOk(x, y) && SideOk(y, x) && x.s.secret == y.s.secret
    requires x.up && x.s.handler.Busy? && x.s.handler.aw.Decrypting? && x.got == 2
    ensures x.s.hs.key.Some? && x.s.hs.expected.Some?
    ensures x.s.handler.aw == Decrypting(x.s.hs.key.value, OwnConfirm(x.s), [])
  {
    PeerKeyFrame(x, y);
    Symmetric(x, y);
  }

  lemma OpensItsConfirm(s: S, now: int)
    requires s.handler.Busy? && s.handler.aw.Decrypting? && s.hs.key.Some? && s.hs.expected.Some?
    requires s.handler.aw == Decrypting(s.hs.key.value, OwnConfirm(s), [])
    ensures AfterDecrypt(s, s.hs.key.value, OwnConfirm(s), [], now) == Secured(s.(handler := Idle))
    ensures var r := Secured(s.(handler := Idle));
            && r == s.(handler := Idle, hs := s.hs.(verified := true), status := Secure, timers := r.timers, log := r.log)
            && Silently(s.log, r.log)
  {
  }

  /** The text being decrypted opens, to something late. */
  lemma LateOpens(x: Side, y: Side)
    requires SideOk(x, y) && SideOk(y, x) && x.s.secret == y.s.secret
    requires x.up && x.s.handler.Busy? && x.s.handler.aw.Decrypting? && x.got > 2
    ensures var aw := x.s.handler.aw;
            && aw.cipher.Sealed? && aw.cipher.key == aw.key && aw.rest == []
            && !aw.cipher.payload.KeyConfirm? && !aw.cipher.payload.End?
  {
    PeerKeyFrame(x, y);
    Symmetric(x, y);
    assert IsLate(y.sent[x.got - 1], Some(Key(y.s.secret, SharedWith(y, x))));
  }

  /** A late text leaves status and handshake alone. */
  lemma OpensLateOk(hash: seq<byte> -> string, x: Side, y: Side, priv: nat, now: int)
    requires SideOk(x, y) && SideOk(y, x) && x.s.secret == y.s.secret
    requires x.up && x.s.handler.Busy? && x.s.handler.aw.Decrypting? && x.got > 2
    ensures var x' := Acts(hash, x, y, RunsOn(priv, now)); Stepped(x, x', y, 0) && Rank(x) == 0
  {
    LateOpens(x, y);
    var p := x.s.handler.aw.cipher.payload;
    var s1 := x.s.(handler := Idle);
    if p.FileDone? {
      OpensDoneOk(x, y, StartFinish(s1, p.id, p.sha256, []), p.id, p.sha256);
    } else {
      PayloadIsSilent(s1, p, now, SendKey(s1));
      LateKeepsHandshake(s1, p, now);
      SilentSide(x, HandlePayload(s1, p, now));
    }
  }

  lemma OpensDoneOk(x: Side, y: Side, s: S, id: string, sha256: string)
    requires SideOk(x, y) && x.up && x.s.handler.Busy? && x.s.handler.aw.Decrypting? && x.got > 2
    requires s == StartFinish(x.s.(handler := Idle), id, sha256, [])
    ensures Stepped(x, Moved(x, s), y, 0)
  {
    SilentSide(x, s);
  }

  lemma LateKeepsHandshake(s: S, p: Message, now: int)
    requires !p.KeyConfirm? && !p.End? && !p.FileDone?
    ensures var r := HandlePayload(s, p, now); r == s.(x := r.x, log := r.log)
  {
    if p.FileCancel? {
      FileCancelIsTransfers(s, p.id, p.reason);
    } else if p.Offer? {
      OfferIsTransfers(s, p.offer);
    } else {
      NewsIsTransfers(s, p, now);
    }
  }

  lemma FinishesFileOk(hash: seq<byte> -> string, x: Side, y: Side, priv: nat, now: int)
    requires SideOk(x, y) && x.up && x.s.handler.Busy? && x.s.handler.aw.FinishingFile?
    ensures var x' := Acts(hash, x, y, RunsOn(priv, now)); Stepped(x, x', y, 0) && Rank(x) == 0
  {
    SilentSide(x, ResumeHandler(hash, x.s, priv, now));
  }

  lemma AcceptsChunkOk(hash: seq<byte> -> string, x: Side, y: Side, priv: nat, now: int)
    requires SideOk(x, y) && x.up && x.s.handler.Busy? && x.s.handler.aw.AcceptingChunk?
    ensures var x' := Acts(hash, x, y, RunsOn(priv, now)); Stepped(x, x', y, 0) && Rank(x) == 0
  {
    var aw := x.s.handler.aw;
    var r := ResumeHandler(hash, x.s, priv, now);
    ChunkIsTransfers(x.s, aw.job, aw.frame);
    ChunkIsSilent(x.s, aw.job, aw.frame);
    ChunkKeepsLoops(x.s, aw.job, aw.frame);
    SilentSide(x, r);
  }

  lemma ChunkIsSilent(s: S, job: ReceiveJob, frame: Binary)
    requires !frame.OtherBinaryVersion?
    ensures Silently(s.log, AfterChunk(s, job, frame).log)
  {
  }

  lemma ChunkKeepsLoops(s: S, job: ReceiveJob, frame: Binary)
    requires !frame.OtherBinaryVersion?
    ensures AfterChunk(s, job, frame).x.loops == s.x.loops
  {
  }

  /** A step that only moves transfers and sends only late messages. */
  lemma TransfersOk(x: Side, y: Side, s: S)
    requires SideOk(x, y) && s == x.s.(x := s.x, log := s.log) && LoopsUnder(s.x, SendKey(x.s))
    requires Logs(x.s.log, s.log, LateEntries(SendKey(x.s)))
    ensures Stepped(x, Moved(x, s), y, 0)
  {
    var more := Appended(x.s.log, s.log);
    forall i | 0 <= i < |more| ensures IsLateOrSilent(more[i], SendKey(x.s)) {
      assert LateEntries(SendKey(x.s))(s.log[|x.s.log| + i]);
    }
    LateData(more, SendKey(x.s));
    if x.s.status != Secure {
      InsecureOk(x, y, s);
    } else {
      SecureIsConfirmed(x, y);
      ConfirmedGrows(x, Moved(x, s), y, Data(more));
    }
  }

  lemma InsecureOk(x: Side, y: Side, s: S)
    requires SideOk(x, y) && s == x.s.(x := s.x, log := s.log) && LoopsUnder(s.x, SendKey(x.s))
    requires x.s.status != Secure && Moved(x, s).sent == x.sent
    ensures Stepped(x, Moved(x, s), y, 0)
  {
  }

  lemma SecureIsConfirmed(x: Side, y: Side)
    requires SideOk(x, y) && x.s.status == Secure
    ensures x.up && Confirmed(x, y) && x.got >= 2
  {
  }

  lemma ConfirmedGrows(x: Side, x': Side, y: Side, more: Log)
    requires Confirmed(x, y) && x'.sent == x.sent + more && x'.s.hs == x.s.hs && x'.s.secret == x.s.secret
    requires forall i :: 0 <= i < |more| ==> IsLate(more[i], x.s.hs.key)
    ensures Confirmed(x', y)
  {
    assert x'.sent[0] == x.sent[0] && x'.sent[1] == x.sent[1];
    forall i | 2 <= i < |x'.sent| ensures IsLate(x'.sent[i], x.s.hs.key) {
      assert i < |x.sent| ==> x'.sent[i] == x.sent[i];
      assert i >= |x.sent| ==> x'.sent[i] == more[i - |x.sent|];
    }
  }

  lemma SaysOk(hash: seq<byte> -> string, x: Side, y: Side, p: Message)
    requires SideOk(x, y) && IsApp(p)
    ensures var x' := Acts(hash, x, y, Says(p)); Stepped(x, x', y, 0)
  {
    SaysLate(x.s, p);
    TransfersOk(x, y, SendApp(x.s, p));
  }

  lemma SaysLate(s: S, p: Message)
    requires IsApp(p)
    ensures var r := SendApp(s, p); r == s.(log := r.log) && Logs(s.log, r.log, LateEntries(SendKey(s)))
  {
  }

  /** The action behind a step of file transfer. */
  function ActionOf(act: Act): Action
    requires act.Offers? || act.Cancels? || act.LoopGoes? || act.Drains?
  {
    match act
    case Offers(src) => FileOffered(src)
    case Cancels(id) => FileCancelled(id)
    case LoopGoes(loop, readOk, buffered) => LoopRunsOn(loop, readOk, buffered)
    case Drains => ChannelDrained
  }

  lemma FileStepOk(hash: seq<byte> -> string, x: Side, y: Side, act: Act)
    requires SideOk(x, y) && CanAct(x, y, act) && (act.Offers? || act.Cancels? || act.LoopGoes? || act.Drains?)
    ensures var x' := Acts(hash, x, y, act); Stepped(x, x', y, 0)
  {
    QueueStepIsTransfers(hash, x.s, ActionOf(act));
    QueueStepUnder(hash, x.s, ActionOf(act));
    TransfersOk(x, y, Next(hash, x.s, ActionOf(act)));
  }

  /** A step of a side that is not yet secure, other than of its transfers. */
  predicate IsProgress(x: Side, act: Act) {
    Rank(x) > 0 && (act.Opens? || act.Receives? || act.RunsOn?)
  }

  /** Any step of one side keeps both sides' invariant and counts down exactly
      one, if it is a handshake step. */
  lemma ActsOk(hash: seq<byte> -> string, x: Side, y: Side, act: Act)
    requires SideOk(x, y) && SideOk(y, x) && x.s.secret == y.s.secret && CanAct(x, y, act)
    ensures var x' := Acts(hash, x, y, act);
            && SideOk(x', y) && SideOk(y, x') && x'.s.secret == x.s.secret
            && Rank(x) == Rank(x') + (if IsProgress(x, act) then 1 else 0)
  {
    OneActOk(hash, x, y, act);
    PeerStaysOk(y, x, Acts(hash, x, y, act));
  }

  lemma OneActOk(hash: seq<byte> -> string, x: Side, y: Side, act: Act)
    requires SideOk(x, y) && SideOk(y, x) && x.s.secret == y.s.secret && CanAct(x, y, act)
    ensures Stepped(x, Acts(hash, x, y, act), y, if IsProgress(x, act) then 1 else 0)
  {
    match act {
      case Opens(now) => OpensOk(hash, x, y, now);
      case Receives(now) => ReceivesOk(hash, x, y, now);
      case RunsOn(priv, now) => RunsOnOk(hash, x, y, priv, now);
      case Says(p) => SaysOk(hash, x, y, p);
      case _ => FileStepOk(hash, x, y, act);
    }
  }

  lemma ReceivesOk(hash: seq<byte> -> string, x: Side, y: Side, now: int)
    requires SideOk(x, y) && SideOk(y, x) && x.s.secret == y.s.secret && CanAct(x, y, Receives(now))
    ensures Stepped(x, Acts(hash, x, y, Receives(now)), y, if Rank(x) > 0 then 1 else 0)
  {
    if x.s.hs.key.None? { ReceivesKeyOk(hash, x, y, now); } else { ReceivesLateOk(hash, x, y, now); }
  }

  lemma OpensTextOk(hash: seq<byte> -> string, x: Side, y: Side, priv: nat, now: int)
    requires SideOk(x, y) && SideOk(y, x) && x.s.secret == y.s.secret
    requires x.s.handler.Busy? && x.s.handler.aw.Decrypting?
    ensures var x' := Acts(hash, x, y, RunsOn(priv, now));
            Stepped(x, x', y, if Rank(x) > 0 then 1 else 0)
  {
    if x.got == 2 { OpensConfirmOk(hash, x, y, priv, now); } else { OpensLateOk(hash, x, y, priv, now); }
  }

  lemma RunsOnOk(hash: seq<byte> -> string, x: Side, y: Side, priv: nat, now: int)
    requires SideOk(x, y) && SideOk(y, x) && x.s.secret == y.s.secret && x.s.handler.Busy?
    ensures var x' := Acts(hash, x, y, RunsOn(priv, now));
            Stepped(x, x', y, if Rank(x) > 0 then 1 else 0)
  {
    match x.s.handler.aw {
      case Generating => GeneratesOk(hash, x, y, priv, now);
      case Exporting(mine) => ExportsOk(hash, x, y, mine, priv, now);
      case Importing(_) => ImportsOk(hash, x, y, priv, now);
      case SealingConfirm(_, _) => SealsOk(hash, x, y, priv, now);
      case Decrypting(_, _, _) => OpensTextOk(hash, x, y, priv, now);
      case FinishingFile(_, _, _) => FinishesFileOk(hash, x, y, priv, now);
      case AcceptingChunk(_, _) => AcceptsChunkOk(hash, x, y, priv, now);
      case _ => DerivesOk(hash, x, y, priv, now);
    }
  }

  // ---- every interleaving ----

  datatype Move = AActs(act: Act) | BActs(act: Act)

  predicate CanMove(w: World, m: Move) {
    if m.AActs? then CanAct(w.a, w.b, m.act) else CanAct(w.b, w.a, m.act)
  }

  function Step(hash: seq<byte> -> string, w: World, m: Move): World
    requires CanMove(w, m)
  {
    if m.AActs? then w.(a := Acts(hash, w.a, w.b, m.act)) else w.(b := Acts(hash, w.b, w.a, m.act))
  }

  function WorldRank(w: World): nat {
    Rank(w.a) + Rank(w.b)
  }

  predicate IsProgressMove(w: World, m: Move) {
    IsProgress(if m.AActs? then w.a else w.b, m.act)
  }

  predicate IsPlay(hash: seq<byte> -> string, w: World, moves: seq<Move>)
    decreases |moves|
  {
    moves == [] || (CanMove(w, moves[0]) && IsPlay(hash, Step(hash, w, moves[0]), moves[1..]))
  }

  function Play(hash: seq<byte> -> string, w: World, moves: seq<Move>): World
    requires IsPlay(hash, w, moves)
    decreases |moves|
  {
    if moves == [] then w else Play(hash, Step(hash, w, moves[0]), moves[1..])
  }

  /** How many moves of a play were handshake steps of a side not yet secure. */
  function ProgressIn(hash: seq<byte> -> string, w: World, moves: seq<Move>): nat
    requires IsPlay(hash, w, moves)
    decreases |moves|
  {
    if moves == [] then 0
    else (if IsProgressMove(w, moves[0]) then 1 else 0) + ProgressIn(hash, Step(hash, w, moves[0]), moves[1..])
  }

  /** A side whose channel is about to open: new, or re-keying after a drop. */
  ghost predicate AboutToOpen(x: Side) {
    && !x.up && x.sent == [] && x.got == 0 && Sound(x.s)
    && x.s.dataOpen && x.s.handler == Idle && x.s.status != Ended && x.s.status != Secure
  }

  /** No control frame is left over from before: its drain loop is not waiting for
      the encryption of an offer or a done frame. */
  predicate Clear(x: Side) {
    forall id :: id in x.s.x.loops && x.s.x.loops[id].Running? ==> !IsControl(x.s.x.loops[id].job.at)
  }

  /** Losing the peer stopped every other transfer, or will before it sends. */
  lemma ClearIsUnder(x: Side)
    requires AboutToOpen(x) && Clear(x)
    ensures LoopsUnder(x.s.x, None)
  {
    CalmPerLoop(x.s.x);
    forall id | id in x.s.x.loops ensures LoopUnder(x.s.x.loops[id], None) {
      assert CalmLoops()(x.s.x.loops[id]);
    }
  }

  lemma StepOk(hash: seq<byte> -> string, w: World, m: Move)
    requires WorldOk(w) && CanMove(w, m)
    ensures WorldOk(Step(hash, w, m))
    ensures WorldRank(w) == WorldRank(Step(hash, w, m)) + (if IsProgressMove(w, m) then 1 else 0)
  {
    if m.AActs? {
      ActsOk(hash, w.a, w.b, m.act);
    } else {
      ActsOk(hash, w.b, w.a, m.act);
    }
  }

  lemma {:induction false} PlayOk(hash: seq<byte> -> string, w: World, moves: seq<Move>)
    requires WorldOk(w) && IsPlay(hash, w, moves)
    ensures WorldOk(Play(hash, w, moves))
    ensures WorldRank(w) == WorldRank(Play(hash, w, moves)) + ProgressIn(hash, w, moves)
    decreases |moves|
  {
    if moves != [] {
      StepOk(hash, w, moves[0]);
      PlayOk(hash, Step(hash, w, moves[0]), moves[1..]);
    }
  }

  lemma SecureHoldsKeys(x: Side, y: Side)
    requires SideOk(x, y) && SideOk(y, x) && x.s.status == Secure
    ensures x.up && HasKey(x, y) && HasCode(x, y) && x.s.hs.expected == Some(TranscriptWith(x, y)) && Rank(x) == 0
  {
  }

  lemma RankZeroIsSecure(x: Side, y: Side)
    requires SideOk(x, y)
    ensures Rank(x) == 0 <==> x.s.status == Secure
  {
  }

  /** The handshake never deadlocks: a side that is not secure can move, or the
      other side can. */
  lemma SomeoneCanMove(x: Side, y: Side)
    requires SideOk(x, y) && SideOk(y, x) && Rank(x) > 0
    ensures || (exists act :: CanAct(x, y, act) && IsProgress(x, act))
            || (exists act :: CanAct(y, x, act) && IsProgress(y, act))
  {
    if !x.up {
      assert CanAct(x, y, Opens(0)) && IsProgress(x, Opens(0));
    } else if x.s.handler.Busy? {
      assert CanAct(x, y, RunsOn(0, 0)) && IsProgress(x, RunsOn(0, 0));
    } else if x.got < |y.sent| {
      assert CanAct(x, y, Receives(0)) && IsProgress(x, Receives(0));
    } else if !y.up {
      assert CanAct(y, x, Opens(0)) && IsProgress(y, Opens(0));
    } else if y.s.handler.Busy? {
      assert CanAct(y, x, RunsOn(0, 0)) && IsProgress(y, RunsOn(0, 0));
    } else {
      assert CanAct(y, x, Receives(0)) && IsProgress(y, Receives(0));
    }
  }

  /** What a play comes to: neither side has ended; whoever is secure holds the key,
      safety code and transcript of the exchange, so two secure sessions hold the
      same ones; and both get there after exactly 24 handshake steps, one of which
      can always be taken until then. */
  ghost predicate Agrees(hash: seq<byte> -> string, w: World, moves: seq<Move>)
    requires IsPlay(hash, w, moves)
  {
    var r := Play(hash, w, moves);
    && r.a.s.status != Ended && r.b.s.status != Ended
    && (r.a.s.status == Secure ==> HasKey(r.a, r.b) && HasCode(r.a, r.b))
    && (r.b.s.status == Secure ==> HasKey(r.b, r.a) && HasCode(r.b, r.a))
    && (r.a.s.status == Secure && r.b.s.status == Secure ==>
          && r.a.s.hs.key == r.b.s.hs.key && r.a.s.hs.code == r.b.s.hs.code
          && r.a.s.hs.expected == r.b.s.hs.expected)
    && ProgressIn(hash, w, moves) + WorldRank(r) == 24
    && (WorldRank(r) == 0 <==> r.a.s.status == Secure && r.b.s.status == Secure)
    && (WorldRank(r) > 0 ==> exists m :: CanMove(r, m) && IsProgressMove(r, m))
  }

  /** Agreement, over every interleaving of two sessions that share a secret on an
      in-order channel that stays up, transfers that outlived an earlier channel
      included, unless one of their control frames is left over. */
  lemma Agreement(hash: seq<byte> -> string, w: World, moves: seq<Move>)
    requires AboutToOpen(w.a) && AboutToOpen(w.b) && w.a.s.secret == w.b.s.secret
    requires Clear(w.a) && Clear(w.b) && IsPlay(hash, w, moves)
    ensures Agrees(hash, w, moves)
  {
    ClearIsUnder(w.a);
    ClearIsUnder(w.b);
    PlayOk(hash, w, moves);
    OkAgrees(Play(hash, w, moves));
  }

  lemma OkAgrees(r: World)
    requires WorldOk(r)
    ensures r.a.s.status != Ended && r.b.s.status != Ended
    ensures r.a.s.status == Secure ==> HasKey(r.a, r.b) && HasCode(r.a, r.b)
    ensures r.b.s.status == Secure ==> HasKey(r.b, r.a) && HasCode(r.b, r.a)
    ensures r.a.s.status == Secure && r.b.s.status == Secure ==>
              && r.a.s.hs.key == r.b.s.hs.key && r.a.s.hs.code == r.b.s.hs.code
              && r.a.s.hs.expected == r.b.s.hs.expected
    ensures WorldRank(r) == 0 <==> r.a.s.status == Secure && r.b.s.status == Secure
    ensures WorldRank(r) > 0 ==> exists m :: CanMove(r, m) && IsProgressMove(r, m)
  {
    if r.a.s.status == Secure { SecureHoldsKeys(r.a, r.b); }
    if r.b.s.status == Secure { SecureHoldsKeys(r.b, r.a); }
    Symmetric(r.a, r.b);
    RankZeroIsSecure(r.a, r.b);
    RankZeroIsSecure(r.b, r.a);
    if WorldRank(r) > 0 { ProgressMoveExists(r); }
  }

  lemma ProgressMoveExists(w: World)
    requires WorldOk(w) && WorldRank(w) > 0
    ensures exists m :: CanMove(w, m) && IsProgressMove(w, m)
  {
    if Rank(w.a) > 0 { SomeoneCanMove(w.a, w.b); } else { SomeoneCanMove(w.b, w.a); }
    if act :| CanAct(w.a, w.b, act) && IsProgress(w.a, act) {
      assert CanMove(w, AActs(act)) && IsProgressMove(w, AActs(act));
    } else {
      var act :| CanAct(w.b, w.a, act) && IsProgress(w.b, act);
      assert CanMove(w, BActs(act)) && IsProgressMove(w, BActs(act));
    }
  }
}
