/** File transfer: the sending job cut at its awaits, the receiving job, and the
    offer check.  Encryption, the channel and the hash appear as the events and
    values they produce. */
module FileTransfer {
  import opened Wrappers
  import opened Base64url
  import opened Wire

  const SEND_HIGH_WATER_BYTES := 1_048_576

  datatype FailReason = Cancelled | Failed | Disconnected

  /** What one transfer sends. `seqNo` and `id` travel inside the ciphertext. */
  datatype FileFrame =
    | OfferFrame(offer: FileOffer)
    | ChunkFrame(id: string, seqNo: nat, bytes: seq<byte>)
    | DoneFrame(id: string, sha256: string)

  /** What a send job is given. `sha256` is the hash its first await yields. */
  datatype Source = Source(id: string, bytes: seq<byte>, name: string, mime: string, sha256: string)

  function OfferFor(src: Source): FileOffer {
    FileOffer(src.id, src.name, src.mime, |src.bytes|, CHUNK_BYTES, ChunkCountFor(|src.bytes|))
  }

  function ChunkAt(src: Source, seqNo: nat): (r: FileFrame)
    requires seqNo < ChunkCountFor(|src.bytes|)
  {
    ChunkFrame(src.id, seqNo, src.bytes[seqNo * CHUNK_BYTES..Min(|src.bytes|, (seqNo + 1) * CHUNK_BYTES)])
  }

  /** The first `n` chunks. */
  function Chunks(src: Source, n: nat): (r: seq<FileFrame>)
    requires n <= ChunkCountFor(|src.bytes|)
    ensures |r| == n
  {
    if n == 0 then [] else Chunks(src, n - 1) + [ChunkAt(src, n - 1)]
  }

  /** Everything a transfer sends when nothing stops it. */
  function Script(src: Source): seq<FileFrame> {
    [OfferFrame(OfferFor(src))] + Chunks(src, ChunkCountFor(|src.bytes|)) + [DoneFrame(src.id, src.sha256)]
  }

  // ---- the sending job ----

  /** Where run() is suspended, or how it ended. */
  datatype Point =
    | Hashing
    | Offering
    | Draining(seqNo: nat)
    | Encrypting(seqNo: nat)
    | Finishing
    | Returned(ok: bool)
    | Threw

  /** `parked`: a drain listener is registered and its promise unresolved. */
  datatype Job = Job(at: Point, stopped: Option<FailReason>, parked: bool)

  const STARTED := Job(Hashing, None, false)

  /** What the job sees when it runs on: whether sendControl's guard passes,
      whether the channel accepts a send, and how much is buffered. */
  datatype Env = Env(ready: bool, open: bool, buffered: int, highWater: int)

  /** The job after it ran on, and the frame it sent, if any. */
  datatype Advance = Advance(job: Job, sent: Option<FileFrame>)

  predicate Suspended(j: Job) {
    !j.at.Returned? && !j.at.Threw?
  }

  /** It can run on: it is suspended at an await that can settle. */
  predicate CanResume(j: Job) {
    Suspended(j) && !j.parked
  }

  /** From the head of the chunk loop to the next await. */
  function LoopHead(src: Source, j: Job, seqNo: nat, env: Env): Job {
    if j.stopped.Some? then j.(at := Returned(false))
    else if seqNo < ChunkCountFor(|src.bytes|) then
      if env.buffered > env.highWater then j.(at := Draining(seqNo), parked := true)
      else j.(at := Encrypting(seqNo))
    else if !env.ready then j.(at := Threw)
    else j.(at := Finishing)
  }

  function Resume(src: Source, j: Job, env: Env): Advance
    requires CanResume(j)
    requires j.at.Encrypting? ==> j.at.seqNo < ChunkCountFor(|src.bytes|)
  {
    match j.at
    case Hashing =>
      Advance(j.(at := if j.stopped.Some? then Returned(false) else if !env.ready then Threw else Offering), None)
    case Offering =>
      if !env.open then Advance(j.(at := Threw), None)
      else Advance(LoopHead(src, j, 0, env), Some(OfferFrame(OfferFor(src))))
    case Draining(seqNo) =>
      Advance(j.(at := if j.stopped.Some? then Returned(false) else Encrypting(seqNo)), None)
    case Encrypting(seqNo) =>
      if j.stopped.Some? then Advance(j.(at := Returned(false)), None)
      else if !env.open then Advance(j.(at := Threw), None)
      else Advance(LoopHead(src, j, seqNo + 1, env), Some(ChunkAt(src, seqNo)))
    case Finishing =>
      if !env.open then Advance(j.(at := Threw), None)
      else Advance(j.(at := Returned(true)), Some(DoneFrame(src.id, src.sha256)))
  }

  function Stop(j: Job, reason: FailReason): Job {
    if j.stopped.Some? then j else j.(stopped := Some(reason), parked := false)
  }

  /** The channel's buffered amount fell to its low threshold. */
  function BufferedLow(j: Job): Job {
    j.(parked := false)
  }

  // ---- the receiving job ----

  datatype Receiver = Receiver(id: string, size: nat, chunks: seq<seq<byte>>, bytesReceived: nat, nextSeq: nat)

  datatype Accept = NoMatch | Accepted(bytesDone: nat) | OutOfOrder | Overflow

  function NewReceiver(offer: FileOffer): Receiver
    requires offer.size >= 0
  {
    Receiver(offer.id, offer.size, [], 0, 0)
  }

  /** acceptFrame on a chunk that decrypted. */
  function AcceptChunk(r: Receiver, id: string, seqNo: nat, bytes: seq<byte>): (Receiver, Accept) {
    if id != r.id then (r, NoMatch)
    else if seqNo != r.nextSeq then (r, OutOfOrder)
    else if r.bytesReceived + |bytes| > r.size then (r, Overflow)
    else
      var done := r.bytesReceived + |bytes|;
      (r.(chunks := r.chunks + [bytes], nextSeq := r.nextSeq + 1, bytesReceived := done), Accepted(done))
  }

  function Concat(chunks: seq<seq<byte>>): seq<byte> {
    if chunks == [] then [] else Concat(chunks[..|chunks| - 1]) + chunks[|chunks| - 1]
  }

  function Zeros(n: nat): seq<byte> {
    seq(n, i => 0)
  }

  /** The buffer of the offered size with the chunks copied in; a discarded job
      has fewer bytes than it counted, and chunks that do not fit throw. */
  function Assembled(r: Receiver): Option<seq<byte>> {
    var held := Concat(r.chunks);
    if |held| > r.size then None else Some(held + Zeros(r.size - |held|))
  }

  /** finish(): the file, when it is complete and its hash is the announced one. */
  function Finish(r: Receiver, hash: seq<byte> -> string, sha256: string): Option<seq<byte>> {
    if r.bytesReceived != r.size || r.nextSeq != ChunkCountFor(r.size) then None
    else
      var all := Assembled(r);
      if all.None? || hash(all.value) != sha256 then None else all
  }

  // ---- the offer check ----

  datatype OfferProblem = Empty | TooLarge | BadName | BadChunking

  function ValidateOffer(o: FileOffer): Option<OfferProblem> {
    if o.size <= 0 then Some(Empty)
    else if o.size > MAX_FILE_BYTES then Some(TooLarge)
    else if |o.name| == 0 || |o.name| > MAX_FILE_NAME_CHARS then Some(BadName)
    else if o.chunkSize != CHUNK_BYTES || o.chunkCount != ChunkCountFor(o.size) then Some(BadChunking)
    else None
  }

  /** sendFile refuses exactly the sizes a receiver would refuse; what it lets
      through is accepted if and only if the file has a name. */
  lemma OwnOfferAccepted(src: Source)
    requires 0 < |src.bytes| <= MAX_FILE_BYTES && |src.name| <= MAX_FILE_NAME_CHARS
    ensures ValidateOffer(OfferFor(src)).None? <==> src.name != ""
  {
  }
}
