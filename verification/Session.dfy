/** The client session as a state machine on values, cut at every await.  Keys,
    transcripts and ciphertexts are symbolic: a ciphertext opens under exactly
    the key that sealed it, and different inputs derive different keys.  Class
    Session (SessionObject.dfy) is proved against these functions. */
module Session {
  import opened Wrappers
  import opened Protocol
  import opened Base64url
  import opened Wire
  import opened FileTransfer

  // ---- symbolic cryptography ----

  /** A public key as received: that of private key `n`, or text that does not import. */
  datatype PubKey = Pub(n: nat) | BadPub

  /** An ECDH secret depends on the unordered pair of keys. */
  datatype SharedSecret = Shared(lo: nat, hi: nat)

  function DH(mine: nat, theirs: nat): SharedSecret {
    if mine <= theirs then Shared(mine, theirs) else Shared(theirs, mine)
  }

  datatype Key = Key(secret: nat, shared: SharedSecret)

  datatype SafetyCode = SafetyCode(secret: nat, shared: SharedSecret)

  /** The hash of the sorted pair of public keys; `Unkeyed` when one's own is missing. */
  datatype Transcript = Hash(lo: nat, hi: nat) | Unkeyed

  function TranscriptOf(mine: Option<nat>, theirs: nat): Transcript {
    if mine.None? then Unkeyed
    else if mine.value <= theirs then Hash(mine.value, theirs) else Hash(theirs, mine.value)
  }

  type Message = Payload<Transcript>

  datatype Cipher = Sealed(key: Key, payload: Message) | Garbage

  datatype Binary = SealedChunk(key: Key, id: string, seqNo: nat, bytes: seq<byte>) | OtherBinaryVersion | GarbageBinary

  datatype TextFrame = PubFrame(key: PubKey) | SealedFrame(cipher: Cipher) | OtherVersion | MalformedText

  // ---- what a session emits and sends ----

  datatype Status = Connecting | WaitingForPeer | Securing | Secure | Reconnecting | Ended

  datatype EndReason =
    | YouEnded | ByPeer | InviteRanOut | GraceRanOut | CreatorGone | KeyConfirmFailed
    | NoSuchRoom | FullRoom | Limited | SignalingGone | VersionMismatch

  datatype Direction = Outgoing | Incoming

  type Token = nat

  datatype Event =
    | StatusIs(status: Status)
    | SecureWith(code: Option<SafetyCode>)
    | ChatFrom(text: string, at: int, chatId: Option<string>)
    | DeliveredTo(id: string)
    | PeerTyping(active: bool)
    | PeerIdentity(displayName: string)
    | GraceCountdown(msRemaining: int)
    | RecoveryToken(token: Token)
    | HasEnded(why: EndReason)
    | FileIncoming(id: string, name: string, mime: string, size: int)
    | FileProgress(id: string, direction: Direction, bytesDone: int, bytesTotal: int)
    | FileComplete(id: string, file: seq<byte>)
    | FileFailed(id: string, direction: Direction, reason: FailReason)
    | FileArrived(id: string)

  /** One log of everything observable, in order. */
  datatype Entry =
    | Emit(event: Event)
    | SendText(frame: TextFrame)
    | SendBinary(chunk: Binary)
    | JoinRoom(token: Option<Token>)
    | LeaveRoom

  type Log = seq<Entry>

  // ---- state ----

  datatype TimerKind = ConfirmTimeout | GraceTick | RejoinRetry

  /** Fully reset on every (re)key. */
  datatype Handshake = Handshake(
    key: Option<Key>,
    keyPair: Option<nat>,
    myPub: Option<nat>,
    code: Option<SafetyCode>,
    expected: Option<Transcript>,
    verified: bool,
    buffer: seq<Cipher>)

  const NO_HANDSHAKE := Handshake(None, None, None, None, None, false, [])

  datatype Timers = Timers(
    confirm: Option<nat>,
    grace: Option<nat>,
    rejoin: Option<nat>,
    pending: map<nat, TimerKind>,
    next: nat)

  datatype ReceiveJob = ReceiveJob(r: Receiver, key: Key)

  /** Where the event handler is suspended. `rest` is what remains of a buffer
      being replayed. */
  datatype Await =
    | Generating
    | Exporting(mine: nat)
    | Importing(received: PubKey)
    | Sharing(peer: nat, shared: SharedSecret)
    | DerivingKey(peer: nat, shared: SharedSecret)
    | DerivingCode(peer: nat, shared: SharedSecret)
    | HashingTranscript(transcript: Transcript)
    | SealingConfirm(key: Key, transcript: Transcript)
    | Decrypting(key: Key, cipher: Cipher, rest: seq<Cipher>)
    | FinishingFile(job: ReceiveJob, sha256: string, rest: seq<Cipher>)
    | AcceptingChunk(job: ReceiveJob, frame: Binary)

  datatype Handler = Idle | Busy(aw: Await)

  /** One run of the drain loop. `ctl` is the key sendControl captured before
      the encryption it awaits; `sent` the frames of the current transfer. */
  datatype Loop =
    | Reading(src: Source, key: Key, ticket: nat)
    | Running(src: Source, key: Key, ticket: nat, job: Job, ctl: Option<Key>, sent: seq<FileFrame>)
    | Exiting

  datatype Queued = Queued(src: Source, ticket: nat)

  /** A transfer the drain loop is done with, and what it sent of it. */
  datatype Block = Block(src: Source, ticket: nat, sent: seq<FileFrame>)

  /** `returned`: the ids sendFile gave out; a ticket is a position in it.
      `history` is bookkeeping of what the drain loop has put behind it. */
  datatype Transfers = Transfers(
    queue: seq<Queued>,
    loops: map<nat, Loop>,
    nextLoop: nat,
    draining: bool,
    activeSend: Option<nat>,
    pendingAck: Option<string>,
    receive: Option<ReceiveJob>,
    returned: seq<string>,
    history: seq<Block>)

  const NO_TRANSFERS := Transfers([], map[], 0, false, None, None, None, [], [])

  datatype S = S(
    secret: nat,
    inviteWindowMs: int,
    status: Status,
    startPending: bool,
    graceDurationMs: int,
    hs: Handshake,
    timers: Timers,
    graceDeadline: int,
    waitingDeadline: int,
    waitingRejoin: bool,
    token: Option<Token>,
    retriesLeft: nat,
    dataOpen: bool,
    closed: bool,
    tail: Option<Key>,
    connects: nat,
    handler: Handler,
    x: Transfers,
    log: Log)

  // ---- small steps ----

  function Emits(s: S, e: Event): S {
    s.(log := s.log + [Emit(e)])
  }

  function SetStatus(s: S, status: Status): S {
    if s.status == status then s else Emits(s.(status := status), StatusIs(status))
  }

  function ClearId(pending: map<nat, TimerKind>, id: Option<nat>): map<nat, TimerKind> {
    if id.None? then pending else pending - {id.value}
  }

  function ClearConfirm(t: Timers): Timers {
    t.(pending := ClearId(t.pending, t.confirm), confirm := None)
  }

  function ClearGrace(t: Timers): Timers {
    t.(pending := ClearId(ClearId(t.pending, t.grace), t.rejoin), grace := None, rejoin := None)
  }

  function StartConfirm(t: Timers): Timers {
    t.(confirm := Some(t.next), pending := t.pending[t.next := ConfirmTimeout], next := t.next + 1)
  }

  function StartGrace(t: Timers): Timers {
    t.(grace := Some(t.next), pending := t.pending[t.next := GraceTick], next := t.next + 1)
  }

  function StartRejoin(t: Timers): Timers {
    t.(rejoin := Some(t.next), pending := t.pending[t.next := RejoinRetry], next := t.next + 1)
  }

  function RememberToken(s: S, token: Option<Token>): S {
    if token.None? || token == s.token then s
    else Emits(s.(token := token, retriesLeft := 2), RecoveryToken(token.value))
  }

  /** stop() on the job activeSend points to. */
  function StopActive(x: Transfers, reason: FailReason): Transfers {
    if x.activeSend.Some? && x.activeSend.value in x.loops && x.loops[x.activeSend.value].Running? then
      var l := x.loops[x.activeSend.value];
      x.(loops := x.loops[x.activeSend.value := l.(job := Stop(l.job, reason))])
    else x
  }

  function FailQueued(queue: seq<Queued>): (log: Log)
    ensures forall i :: 0 <= i < |log| ==> log[i].Emit? && log[i].event.FileFailed?
  {
    if queue == [] then []
    else FailQueued(queue[..|queue| - 1]) + [Emit(FileFailed(queue[|queue| - 1].src.id, Outgoing, Disconnected))]
  }

  /** Leaving "secure" kills every transfer; the drain loop reports the active one. */
  function FailAllTransfers(s: S): S {
    var x := StopActive(s.x, Disconnected);
    var acked := if x.pendingAck.Some? then [Emit(FileFailed(x.pendingAck.value, Outgoing, Disconnected))] else [];
    var received := if x.receive.Some? then [Emit(FileFailed(x.receive.value.r.id, Incoming, Disconnected))] else [];
    s.(x := x.(pendingAck := None, queue := [], receive := None),
       log := s.log + acked + FailQueued(x.queue) + received)
  }

  function ResetHandshake(s: S): S {
    FailAllTransfers(s).(timers := ClearConfirm(s.timers), hs := NO_HANDSHAKE)
  }

  function CloseTransport(s: S): S {
    s.(closed := true, dataOpen := false)
  }

  function FinishSession(s: S, reason: EndReason, close: bool): S {
    if s.status == Ended then s
    else
      var s1 := ResetHandshake(s.(timers := ClearGrace(s.timers)));
      var s2 := Emits(SetStatus(s1.(startPending := false), Ended), HasEnded(reason));
      if close then CloseTransport(s2) else s2
  }

  function FailHandshake(s: S, reason: EndReason): S {
    if s.status == Ended then s else FinishSession(s.(log := s.log + [LeaveRoom]), reason, true)
  }

  // ---- grace and rejoin ----

  function ScheduleRejoin(s: S): S {
    if s.timers.rejoin.Some? then s else s.(timers := StartRejoin(s.timers))
  }

  function AttemptRejoin(s: S): S {
    s.(connects := s.connects + 1)
  }

  function RejoinOrExpire(s: S, now: int): S {
    if now >= s.waitingDeadline then FinishSession(s, InviteRanOut, true) else AttemptRejoin(s)
  }

  predicate RejoinAllowed(s: S) {
    s.status == Reconnecting || (s.status == WaitingForPeer && s.waitingRejoin)
  }

  /** The key is dead; a single countdown for the room starts. */
  function GraceBegun(s: S, now: int): S {
    var s1 := SetStatus(ResetHandshake(s), Reconnecting);
    var s2 := Emits(s1.(graceDeadline := now + s1.graceDurationMs), GraceCountdown(s1.graceDurationMs));
    s2.(timers := StartGrace(s2.timers))
  }

  function EnterGrace(s: S, needsRejoin: bool, now: int): S {
    if s.status == Reconnecting then
      if needsRejoin then ScheduleRejoin(s) else s
    else
      var s1 := GraceBegun(s, now);
      if needsRejoin then AttemptRejoin(s1) else s1
  }

  function TickGrace(s: S, now: int): S {
    var left := s.graceDeadline - now;
    if left <= 0 then FinishSession(s, GraceRanOut, true) else Emits(s, GraceCountdown(left))
  }

  /** The connect() of a rejoin attempt settles. */
  function ConnectSettled(s: S, ok: bool): S
    requires s.connects > 0
  {
    var s1 := s.(connects := s.connects - 1);
    if !RejoinAllowed(s1) then s1
    else if ok then s1.(log := s1.log + [JoinRoom(s1.token)])
    else ScheduleRejoin(s1)
  }

  function RejoinTimerFired(s: S, now: int): S {
    if s.waitingRejoin then RejoinOrExpire(s, now) else AttemptRejoin(s)
  }

  /** A pending timer fires; the interval stays pending, the others do not. */
  function TimerFires(s: S, t: nat, now: int): S
    requires t in s.timers.pending
  {
    match s.timers.pending[t]
    case GraceTick => TickGrace(s, now)
    case ConfirmTimeout =>
      FailHandshake(s.(timers := s.timers.(pending := s.timers.pending - {t})), KeyConfirmFailed)
    case RejoinRetry =>
      RejoinTimerFired(s.(timers := s.timers.(pending := s.timers.pending - {t}, rejoin := None)), now)
  }

  function Wake(s: S, now: int): S {
    if s.status == Ended || s.timers.rejoin.None? then s
    else RejoinTimerFired(s.(timers := s.timers.(pending := ClearId(s.timers.pending, s.timers.rejoin), rejoin := None)), now)
  }

  /** end(), up to its first await. `tail` is the "end" payload still being encrypted. */
  function EndSession(s: S): S {
    if s.status == Ended then s
    else if s.status == Secure && s.hs.key.Some? && s.dataOpen then
      FinishSession(s.(tail := s.hs.key), YouEnded, false)
    else
      FinishSession(CloseTransport(s.(log := s.log + [LeaveRoom])), YouEnded, false)
  }

  /** The rest of end(): a best-effort "end", then leave and close. */
  function EndTail(s: S): S
    requires s.tail.Some?
  {
    var said := if s.dataOpen then [SendText(SealedFrame(Sealed(s.tail.value, Payload.End)))] else [];
    CloseTransport(s.(tail := None, log := s.log + said + [LeaveRoom]))
  }

  // ---- transport events ----

  datatype TransportEvent =
    | RoomCreated(token: Option<Token>)
    | RoomJoined(participants: nat, graceDurationMs: int, token: Option<Token>)
    | PeerCame(token: Option<Token>)
    | PeerWent
    | ServerSays(code: ErrorCode)
    | RoomGone(reason: ClosedReason)
    | DataOpened
    | DataLost
    | DataText(frame: TextFrame)
    | DataBinary(chunk: Binary)
    | SignalingDown

  function ReasonFor(reason: ClosedReason): EndReason {
    match reason
    case InviteExpired => InviteRanOut
    case GraceExpired => GraceRanOut
    case CreatorLeft => CreatorGone
    case PeerEnded => ByPeer
  }

  function ServerErrorReason(s: S, code: ErrorCode): EndReason {
    match code
    case RoomNotFound =>
      if s.status == Reconnecting then GraceRanOut else if s.waitingRejoin then InviteRanOut else NoSuchRoom
    case RoomIsFull => FullRoom
    case RoomExists => FullRoom
    case RateLimited => Limited
    case ConfigInvalid => SignalingGone
  }

  function HandleServerError(s: S, code: ErrorCode): S {
    if code == RoomNotFound && s.token.Some? && s.retriesLeft > 0 && RejoinAllowed(s) then
      ScheduleRejoin(s.(retriesLeft := s.retriesLeft - 1))
    else FinishSession(s, ServerErrorReason(s, code), true)
  }

  /** A lone participant waits; one that never learnt the room's deadline uses
      the protocol maximum. */
  function AwaitPeer(s: S, now: int): S {
    SetStatus(s.(waitingDeadline := if s.waitingDeadline == 0 then now + INVITE_WINDOW_MAX_MS else s.waitingDeadline),
              WaitingForPeer)
  }

  /** What a "joined" says about the room. */
  function RoomLearnt(s: S, graceDurationMs: int, token: Option<Token>): S {
    RememberToken(s, token).(graceDurationMs := graceDurationMs, waitingRejoin := false, startPending := false)
  }

  function HandleJoined(s: S, participants: nat, graceDurationMs: int, token: Option<Token>, now: int): S {
    var s1 := RoomLearnt(s, graceDurationMs, token);
    if participants == 0 && (s1.status == Connecting || s1.status == WaitingForPeer) then AwaitPeer(s1, now) else s1
  }

  function HandleSignalingDown(s: S, now: int): S {
    match s.status
    case Secure => EnterGrace(s, true, now)
    case Securing => EnterGrace(s, true, now)
    case Reconnecting => ScheduleRejoin(s)
    case WaitingForPeer => RejoinOrExpire(s.(waitingRejoin := true), now)
    case _ => FinishSession(s, SignalingGone, true)
  }

  /** A frame that did not parse. */
  function HandleUnparsed(s: S, frame: TextFrame): S {
    if frame.OtherVersion? then FailHandshake(s, VersionMismatch)
    else if !s.hs.verified then FailHandshake(s, KeyConfirmFailed) else s
  }

  /** Fresh keys on every channel; the handler generates them. */
  function BeginHandshake(s: S): S {
    ResetHandshake(s).(handler := Busy(Generating))
  }

  function HandleText(s: S, frame: TextFrame): S {
    match frame
    case PubFrame(key) =>
      if s.hs.keyPair.None? || s.hs.key.Some? then s else s.(handler := Busy(Importing(key)))
    case SealedFrame(cipher) =>
      if s.hs.key.None? then s.(hs := s.hs.(buffer := s.hs.buffer + [cipher]))
      else s.(handler := Busy(Decrypting(s.hs.key.value, cipher, [])))
    case _ => HandleUnparsed(s, frame)
  }

  function HandleBinary(s: S, frame: Binary): S {
    if s.x.receive.None? || !s.hs.verified then s
    else s.(handler := Busy(AcceptingChunk(s.x.receive.value, frame)))
  }

  /** One transport event, up to the handler's first await. */
  function HandleEvent(s: S, e: TransportEvent, now: int): S {
    if s.status == Ended then s
    else match e
      case RoomCreated(token) =>
        SetStatus(RememberToken(s, token).(waitingDeadline := now + s.inviteWindowMs), WaitingForPeer).(startPending := false)
      case RoomJoined(participants, grace, token) => HandleJoined(s, participants, grace, token, now)
      case PeerCame(token) => RememberToken(s, token)
      case DataOpened => BeginHandshake(SetStatus(s.(timers := ClearGrace(s.timers)), Securing))
      case DataText(frame) => HandleText(s, frame)
      case DataBinary(frame) => HandleBinary(s, frame)
      case DataLost => if s.status == Secure || s.status == Securing then EnterGrace(s, false, now) else s
      case PeerWent => if s.status == Secure || s.status == Securing then EnterGrace(s, false, now) else s
      case ServerSays(code) => HandleServerError(s, code)
      case RoomGone(reason) => FinishSession(s, ReasonFor(reason), true)
      case SignalingDown => HandleSignalingDown(s, now)
  }

  // ---- payloads ----

  function BecomeSecure(s: S): S {
    var s1 := SetStatus(s.(timers := ClearConfirm(s.timers)), Secure);
    Emits(s1, SecureWith(s1.hs.code))
  }

  /** A failure of the active receive: reported, its buffer dropped. */
  function FailReceive(s: S, id: string, reason: FailReason): S {
    Emits(s.(x := s.x.(receive := None)), FileFailed(id, Incoming, reason))
  }

  function CancelReasonOf(reason: CancelReason): FailReason {
    if reason == ByError then Failed else Cancelled
  }

  function ActiveId(x: Transfers): Option<string> {
    if x.activeSend.Some? && x.activeSend.value in x.loops && x.loops[x.activeSend.value].Running?
    then Some(x.loops[x.activeSend.value].src.id) else None
  }

  function HandleFileCancel(s: S, id: string, reason: CancelReason): S {
    if !s.hs.verified then s
    else if ActiveId(s.x) == Some(id) then s.(x := StopActive(s.x, CancelReasonOf(reason)))
    else if s.x.receive.Some? && s.x.receive.value.r.id == id then FailReceive(s, id, CancelReasonOf(reason))
    else CancelPendingAck(s, id, CancelReasonOf(reason))
  }

  function HandleOffer(s: S, o: FileOffer): S {
    if !s.hs.verified || s.hs.key.None? || s.x.receive.Some? || ValidateOffer(o).Some? then s
    else Emits(s.(x := s.x.(receive := Some(ReceiveJob(NewReceiver(o), s.hs.key.value)))),
               FileIncoming(o.id, o.name, o.mime, o.size))
  }

  function HandleFileReceived(s: S, id: string): S {
    if !s.hs.verified then s
    else Emits(if s.x.pendingAck == Some(id) then s.(x := s.x.(pendingAck := None)) else s, FileArrived(id))
  }

  function HandleConfirm(s: S, transcript: Transcript): S {
    if s.hs.expected == Some(transcript) then BecomeSecure(s.(hs := s.hs.(verified := true)))
    else FailHandshake(s, KeyConfirmFailed)
  }

  /** Payloads whose handling does not await. */
  function HandlePayload(s: S, p: Message, now: int): S
    requires !p.FileDone?
  {
    match p
    case KeyConfirm(t) => HandleConfirm(s, t)
    case Identity(name) => if s.hs.verified then Emits(s, PeerIdentity(name)) else s
    case Chat(id, text) => if s.hs.verified then Emits(s, ChatFrom(text, now, id)) else s
    case Delivered(id) => if s.hs.verified then Emits(s, DeliveredTo(id)) else s
    case Typing(active) => if s.hs.verified then Emits(s, PeerTyping(active)) else s
    case End => if s.hs.verified then FinishSession(s, ByPeer, true) else s
    case Offer(o) => HandleOffer(s, o)
    case FileCancel(id, reason) => HandleFileCancel(s, id, reason)
    case FileReceived(id) => HandleFileReceived(s, id)
  }

  /** On to the next buffered frame, or done with the event. */
  function NextBuffered(s: S, rest: seq<Cipher>): S {
    if rest == [] || s.hs.key.None? then s.(handler := Idle)
    else s.(handler := Busy(Decrypting(s.hs.key.value, rest[0], rest[1..])))
  }

  function Decrypt(key: Key, cipher: Cipher): Option<Message> {
    if cipher.Sealed? && cipher.key == key then Some(cipher.payload) else None
  }

  // ---- the handler runs on from an await ----

  /** `priv` is the private key a generation yields; `hash` is SHA-256. */
  function ResumeHandler(hash: seq<byte> -> string, s: S, priv: nat, now: int): S
    requires s.handler.Busy?
  {
    match s.handler.aw
    case Generating => s.(hs := s.hs.(keyPair := Some(priv)), handler := Busy(Exporting(priv)))
    case Exporting(mine) => AfterExport(s, mine)
    case Importing(peer) => AfterImport(s, peer)
    case Sharing(peer, shared) => s.(handler := Busy(DerivingKey(peer, shared)))
    case DerivingKey(peer, shared) =>
      s.(hs := s.hs.(key := Some(Key(s.secret, shared))), handler := Busy(DerivingCode(peer, shared)))
    case DerivingCode(peer, shared) =>
      s.(hs := s.hs.(code := Some(SafetyCode(s.secret, shared))),
         handler := Busy(HashingTranscript(TranscriptOf(s.hs.myPub, peer))))
    case HashingTranscript(t) => AfterTranscript(s.(hs := s.hs.(expected := Some(t))), t)
    case SealingConfirm(key, t) => AfterSealing(s, key, t)
    case Decrypting(key, cipher, rest) => AfterDecrypt(s, key, cipher, rest, now)
    case FinishingFile(job, sha256, rest) => AfterFinish(hash, s, job, sha256, rest)
    case AcceptingChunk(job, frame) => AfterChunk(s, job, frame)
  }

  /** A handler that threw: enqueue() ends the session. */
  function HandlerThrew(s: S): S {
    FinishSession(s.(handler := Idle), SignalingGone, true)
  }

  function AfterExport(s: S, mine: nat): S {
    var s1 := s.(hs := s.hs.(myPub := Some(mine)));
    if !s.dataOpen then HandlerThrew(s1)
    else s1.(handler := Idle, timers := StartConfirm(s.timers), log := s.log + [SendText(PubFrame(Pub(mine)))])
  }

  function AfterImport(s: S, peer: PubKey): S {
    if peer.BadPub? || s.hs.keyPair.None? then FailHandshake(s.(handler := Idle), KeyConfirmFailed)
    else s.(handler := Busy(Sharing(peer.n, DH(s.hs.keyPair.value, peer.n))))
  }

  function AfterTranscript(s: S, t: Transcript): S {
    if s.hs.key.None? then FailHandshake(s.(handler := Idle), KeyConfirmFailed)
    else s.(handler := Busy(SealingConfirm(s.hs.key.value, t)))
  }

  function AfterSealing(s: S, key: Key, t: Transcript): S {
    if !s.dataOpen then FailHandshake(s.(handler := Idle), KeyConfirmFailed)
    else
      NextBuffered(s.(handler := Idle, log := s.log + [SendText(SealedFrame(Sealed(key, KeyConfirm(t))))],
                      hs := s.hs.(buffer := [])), s.hs.buffer)
  }

  function AfterDecrypt(s: S, key: Key, cipher: Cipher, rest: seq<Cipher>, now: int): S {
    var p := Decrypt(key, cipher);
    var s1 := s.(handler := Idle);
    if p.None? then
      NextBuffered(if s1.hs.verified then s1 else FailHandshake(s1, KeyConfirmFailed), rest)
    else if p.value.FileDone? then StartFinish(s1, p.value.id, p.value.sha256, rest)
    else NextBuffered(HandlePayload(s1, p.value, now), rest)
  }

  function StartFinish(s: S, id: string, sha256: string, rest: seq<Cipher>): S {
    if !s.hs.verified || s.x.receive.None? || s.x.receive.value.r.id != id then NextBuffered(s, rest)
    else s.(x := s.x.(receive := None), handler := Busy(FinishingFile(s.x.receive.value, sha256, rest)))
  }

  function AfterFinish(hash: seq<byte> -> string, s: S, job: ReceiveJob, sha256: string, rest: seq<Cipher>): S {
    var file := FileTransfer.Finish(job.r, hash, sha256);
    NextBuffered(Emits(s.(handler := Idle), if file.Some? then FileComplete(job.r.id, file.value)
                                            else FileFailed(job.r.id, Incoming, Failed)), rest)
  }

  function AfterChunk(s: S, job: ReceiveJob, frame: Binary): S {
    if frame.OtherBinaryVersion? then FailHandshake(s.(handler := Idle), VersionMismatch)
    else TakeChunk(s.(handler := Idle), job, frame)
  }

  /** A chunk in the known framing; any failure is fatal for the transfer only. */
  function TakeChunk(s: S, job: ReceiveJob, frame: Binary): S
    requires !frame.OtherBinaryVersion?
  {
    if frame.GarbageBinary? || frame.key != job.key then FailReceive(s, job.r.id, Failed)
    else
      var (r, a) := AcceptChunk(job.r, frame.id, frame.seqNo, frame.bytes);
      if a.OutOfOrder? || a.Overflow? then FailReceive(s, job.r.id, Failed)
      else Took(s, job.(r := r), a)
  }

  /** The receive job, if still wanted, as it is after the chunk. */
  function Took(s: S, job: ReceiveJob, a: Accept): S
    requires a.NoMatch? || a.Accepted?
  {
    var s1 := s.(x := s.x.(receive := if s.x.receive.Some? then Some(job) else None));
    if a.NoMatch? then s1 else Emits(s1, FileProgress(job.r.id, Incoming, a.bytesDone, job.r.size))
  }

  // ---- sending files ----

  /** Whether sendFile, sendChat and sendControl are let through. */
  predicate CanSend(s: S) {
    s.status == Secure && s.hs.key.Some? && s.dataOpen
  }

  /** sendFile; refused calls (not secure, empty, too large) change nothing. */
  function SendFile(s: S, src: Source): S {
    if !CanSend(s) || |src.bytes| == 0 || |src.bytes| > MAX_FILE_BYTES then s
    else
      var s1 := s.(x := s.x.(queue := s.x.queue + [Queued(src, |s.x.returned|)], returned := s.x.returned + [src.id]));
      if s1.x.draining then s1
      else
        var id := s1.x.nextLoop;
        LoopTop(s1.(x := s1.x.(draining := true, nextLoop := id + 1)), id)
  }

  function PutLoop(x: Transfers, id: nat, l: Loop): Transfers {
    x.(loops := x.loops[id := l])
  }

  /** From the head of the drain loop to its next await. */
  function LoopTop(s: S, id: nat): S
    decreases |s.x.queue|
  {
    if s.x.queue == [] then s.(x := PutLoop(s.x, id, Exiting))
    else
      var q := s.x.queue[0];
      var s1 := s.(x := s.x.(queue := s.x.queue[1..]));
      if CanSend(s) then s1.(x := PutLoop(s1.x, id, Reading(q.src, s.hs.key.value, q.ticket)))
      else LoopTop(Settled(s1, Block(q.src, q.ticket, []), Some(Disconnected)), id)
  }

  /** The drain loop puts a transfer behind it, reporting it failed if it did. */
  function Settled(s: S, b: Block, failed: Option<FailReason>): S {
    var s1 := s.(x := s.x.(history := s.x.history + [b]));
    if failed.None? then s1 else Emits(s1, FileFailed(b.src.id, Outgoing, failed.value))
  }

  /** The file was read, or could not be. */
  function AfterRead(s: S, id: nat, ok: bool): S
    requires id in s.x.loops && s.x.loops[id].Reading?
  {
    var l := s.x.loops[id];
    if !ok then LoopTop(Settled(s, Block(l.src, l.ticket, []), Some(Failed)), id)
    else s.(x := PutLoop(s.x, id, Running(l.src, l.key, l.ticket, STARTED, None, [])).(activeSend := Some(id)))
  }

  /** What goes over the wire for a frame of the job: control frames under the
      key sendControl captured, chunks under the job's key. */
  function Wired(l: Loop, f: FileFrame): Log
    requires l.Running?
  {
    match f
    case ChunkFrame(id, seqNo, bytes) => [SendBinary(SealedChunk(l.key, id, seqNo, bytes))]
    case OfferFrame(o) => if l.ctl.None? then [] else [SendText(SealedFrame(Sealed(l.ctl.value, Offer(o))))]
    case DoneFrame(id, sha256) =>
      if l.ctl.None? then [] else [SendText(SealedFrame(Sealed(l.ctl.value, FileDone(id, sha256))))]
  }

  function Progress(src: Source, f: FileFrame): Log {
    if f.ChunkFrame?
    then [Emit(FileProgress(src.id, Outgoing, Min(|src.bytes|, (f.seqNo + 1) * CHUNK_BYTES), |src.bytes|))]
    else []
  }

  /** The loop runs a job that can run on. */
  predicate JobCanRun(l: Loop) {
    && l.Running? && CanResume(l.job)
    && (l.job.at.Encrypting? ==> l.job.at.seqNo < ChunkCountFor(|l.src.bytes|))
  }

  function Ran(s: S, l: Loop, buffered: int): Advance
    requires JobCanRun(l)
  {
    Resume(l.src, l.job, Env(CanSend(s), s.dataOpen, buffered, SEND_HIGH_WATER_BYTES))
  }

  /** The loop after its job ran on to the next await; sendControl captures the
      session key when it is called. */
  function RanOn(s: S, l: Loop, buffered: int): Loop
    requires JobCanRun(l)
  {
    var r := Ran(s, l, buffered);
    l.(job := r.job, ctl := if r.job.at.Offering? || r.job.at.Finishing? then s.hs.key else l.ctl,
       sent := l.sent + if r.sent.Some? then [r.sent.value] else [])
  }

  /** What it put on the wire, and the progress it reported. */
  function RanLog(s: S, l: Loop, buffered: int): Log
    requires JobCanRun(l)
  {
    var sent := Ran(s, l, buffered).sent;
    if sent.Some? then Wired(l, sent.value) + Progress(l.src, sent.value) else []
  }

  /** The active job runs on from one of its awaits. */
  function JobRunsOn(s: S, id: nat, buffered: int): S
    requires id in s.x.loops && JobCanRun(s.x.loops[id])
  {
    s.(x := PutLoop(s.x, id, RanOn(s, s.x.loops[id], buffered)), log := s.log + RanLog(s, s.x.loops[id], buffered))
  }

  /** Why a job that did not send everything failed. */
  function WhyFailed(s: S, job: Job): FailReason {
    if job.at.Threw? then (if s.status == Secure then Failed else Disconnected)
    else if job.stopped.Some? then job.stopped.value else Cancelled
  }

  /** run() has returned or thrown; the loop goes on. */
  function JobEnded(s: S, id: nat): S
    requires id in s.x.loops && s.x.loops[id].Running? && !Suspended(s.x.loops[id].job)
  {
    var l := s.x.loops[id];
    var b := Block(l.src, l.ticket, l.sent);
    var s1 := s.(x := s.x.(activeSend := None));
    if l.job.at == Returned(true) then
      LoopTop(Settled(s1.(x := s1.x.(pendingAck := Some(l.src.id))), b, None), id)
    else
      var reason := WhyFailed(s, l.job);
      LoopTop(Settled(s1, b, Some(reason)), id)
  }

  /** drainSendQueue's finally, one turn after the loop found the queue empty. */
  function LoopExits(s: S, id: nat): S
    requires id in s.x.loops && s.x.loops[id].Exiting?
  {
    s.(x := s.x.(draining := false, loops := s.x.loops - {id}))
  }

  predicate LoopCanRun(s: S, id: nat) {
    && id in s.x.loops
    && (s.x.loops[id].Running? ==> !Suspended(s.x.loops[id].job) || JobCanRun(s.x.loops[id]))
  }

  /** The drain loop runs on; `readOk` and `buffered` are what it finds. */
  function LoopRuns(s: S, id: nat, readOk: bool, buffered: int): S
    requires LoopCanRun(s, id)
  {
    match s.x.loops[id]
    case Reading(_, _, _) => AfterRead(s, id, readOk)
    case Exiting => LoopExits(s, id)
    case Running(_, _, _, job, _, _) => if Suspended(job) then JobRunsOn(s, id, buffered) else JobEnded(s, id)
  }

  /** The channel drained: every parked job is released. */
  function BufferLow(s: S): S {
    s.(x := s.x.(loops := map id | id in s.x.loops ::
         if s.x.loops[id].Running? then s.x.loops[id].(job := BufferedLow(s.x.loops[id].job)) else s.x.loops[id]))
  }

  function CancelQueued(queue: seq<Queued>, id: string): seq<Queued> {
    if queue == [] then []
    else if queue[0].src.id == id then queue[1..]
    else [queue[0]] + CancelQueued(queue[1..], id)
  }

  predicate IsQueued(queue: seq<Queued>, id: string) {
    exists i :: 0 <= i < |queue| && queue[i].src.id == id
  }

  function CancelInQueue(s: S, id: string): S {
    if !IsQueued(s.x.queue, id) then s
    else Emits(s.(x := s.x.(queue := CancelQueued(s.x.queue, id))), FileFailed(id, Outgoing, Cancelled))
  }

  function CancelReceive(s: S, id: string): S {
    if s.x.receive.Some? && s.x.receive.value.r.id == id then FailReceive(s, id, Cancelled) else s
  }

  function CancelPendingAck(s: S, id: string, reason: FailReason): S {
    if s.x.pendingAck == Some(id) then Emits(s.(x := s.x.(pendingAck := None)), FileFailed(id, Outgoing, reason)) else s
  }

  function CancelFile(s: S, id: string): S {
    if ActiveId(s.x) == Some(id) then s.(x := StopActive(s.x, Cancelled))
    else CancelPendingAck(CancelReceive(CancelInQueue(s, id), id), id, Cancelled)
  }

  /** sendChat, sendTyping, identity and acks: encrypted, sent if still secure. */
  function SendApp(s: S, p: Message): S {
    if !CanSend(s) then s else s.(log := s.log + [SendText(SealedFrame(Sealed(s.hs.key.value, p)))])
  }

  // ---- everything that can happen, one step at a time ----

  datatype Action =
    | Deliver(event: TransportEvent, now: int)
    | HandlerRuns(priv: nat, now: int)
    | EndCalled
    | EndTailRuns
    | TimerFired(timer: nat, now: int)
    | Woken(now: int)
    | ConnectDone(ok: bool)
    | FileOffered(src: Source)
    | FileCancelled(id: string)
    | LoopRunsOn(loop: nat, readOk: bool, buffered: int)
    | ChannelDrained
    | ChannelIs(open: bool)
    | AppSends(payload: Message)

  /** Payloads sent outside handshake and file transfer. */
  predicate IsApp(p: Message) {
    p.Identity? || p.Chat? || p.Delivered? || p.Typing? || p.FileCancel? || p.FileReceived?
  }

  /** Events are handled one at a time; "created" answers the first request; a
      channel never opens on a closed transport; new transfer ids are fresh. */
  predicate Enabled(s: S, a: Action) {
    match a
    case Deliver(e, _) => s.handler.Idle? && (e.RoomCreated? ==> s.status == Connecting || s.status == Ended)
    case HandlerRuns(_, _) => s.handler.Busy?
    case EndTailRuns => s.tail.Some?
    case TimerFired(t, _) => t in s.timers.pending
    case ConnectDone(_) => s.connects > 0
    case FileOffered(src) => src.id !in s.x.returned
    case LoopRunsOn(id, _, _) => LoopCanRun(s, id)
    case ChannelIs(open) => open ==> !s.closed
    case AppSends(p) => IsApp(p)
    case _ => true
  }

  function Next(hash: seq<byte> -> string, s: S, a: Action): S
    requires Enabled(s, a)
  {
    match a
    case Deliver(e, now) => HandleEvent(s, e, now)
    case HandlerRuns(priv, now) => ResumeHandler(hash, s, priv, now)
    case EndCalled => EndSession(s)
    case EndTailRuns => EndTail(s)
    case TimerFired(t, now) => TimerFires(s, t, now)
    case Woken(now) => Wake(s, now)
    case ConnectDone(ok) => ConnectSettled(s, ok)
    case FileOffered(src) => SendFile(s, src)
    case FileCancelled(id) => CancelFile(s, id)
    case LoopRunsOn(id, readOk, buffered) => LoopRuns(s, id, readOk, buffered)
    case ChannelDrained => BufferLow(s)
    case ChannelIs(open) => s.(dataOpen := open)
    case AppSends(p) => SendApp(s, p)
  }

  function Fresh(secret: nat, inviteWindowMs: int, graceDurationMs: int, token: Option<Token>): S {
    RememberToken(
      S(secret, inviteWindowMs, Connecting, true, graceDurationMs, NO_HANDSHAKE, Timers(None, None, None, map[], 0),
        0, 0, false, None, 0, false, false, None, 0, Idle,
        NO_TRANSFERS, []), token)
  }

  predicate IsRun(hash: seq<byte> -> string, s: S, actions: seq<Action>)
    decreases |actions|
  {
    actions == [] || (Enabled(s, actions[0]) && IsRun(hash, Next(hash, s, actions[0]), actions[1..]))
  }

  function Run(hash: seq<byte> -> string, s: S, actions: seq<Action>): S
    requires IsRun(hash, s, actions)
    decreases |actions|
  {
    if actions == [] then s else Run(hash, Next(hash, s, actions[0]), actions[1..])
  }
}
