/** The send job against every interleaving of stops, drains and failures, and
    the receiver against whatever the job sent. */
module TransferTheorems {
  import opened Wrappers
  import opened Base64url
  import opened Wire
  import opened FileTransfer

  // ---- the send job over every run ----

  datatype JobEvent = RunOn(env: Env) | StopCalled(reason: FailReason) | DrainEvent

  /** A job and the frames it has sent. */
  datatype Sending = Sending(job: Job, sent: seq<FileFrame>)

  function Happens(src: Source, s: Sending, e: JobEvent): Sending
    requires SendOk(src, s)
  {
    match e
    case RunOn(env) =>
      if !CanResume(s.job) then s
      else
        var r := Resume(src, s.job, env);
        Sending(r.job, s.sent + if r.sent.Some? then [r.sent.value] else [])
    case StopCalled(reason) => s.(job := Stop(s.job, reason))
    case DrainEvent => s.(job := BufferedLow(s.job))
  }

  /** The offer and the first `n` chunks. */
  function Begun(src: Source, n: nat): seq<FileFrame>
    requires n <= ChunkCountFor(|src.bytes|)
  {
    [OfferFrame(OfferFor(src))] + Chunks(src, n)
  }

  /** Everything but the done frame was sent in part. */
  predicate Cut(src: Source, sent: seq<FileFrame>) {
    sent == [] || exists n :: 0 <= n <= ChunkCountFor(|src.bytes|) && sent == Begun(src, n)
  }

  /** At every point of every run: what was sent is exactly the part of the
      script that the point implies, `true` is returned exactly when everything
      was sent, `false` only after a stop, and a parked job is never stopped. */
  predicate SendOk(src: Source, s: Sending) {
    && (match s.job.at
        case Hashing => s.sent == []
        case Offering => s.sent == []
        case Draining(k) => k < ChunkCountFor(|src.bytes|) && s.sent == Begun(src, k)
        case Encrypting(k) => k < ChunkCountFor(|src.bytes|) && s.sent == Begun(src, k)
        case Finishing => s.sent == Begun(src, ChunkCountFor(|src.bytes|))
        case Returned(ok) => if ok then s.sent == Script(src) else s.job.stopped.Some? && Cut(src, s.sent)
        case Threw => Cut(src, s.sent))
    && (s.job.parked ==> s.job.at.Draining? && s.job.stopped.None?)
  }

  lemma LoopHeadOk(src: Source, j: Job, seqNo: nat, env: Env)
    requires seqNo <= ChunkCountFor(|src.bytes|) && !j.parked
    ensures SendOk(src, Sending(LoopHead(src, j, seqNo, env), Begun(src, seqNo)))
  {
  }

  lemma HappensKeepsOk(src: Source, s: Sending, e: JobEvent)
    requires SendOk(src, s)
    ensures SendOk(src, Happens(src, s, e))
  {
    if e.RunOn? && CanResume(s.job) {
      var env := e.env;
      match s.job.at {
        case Hashing =>
        case Draining(k) =>
        case Offering =>
          if env.open {
            LoopHeadOk(src, s.job, 0, env);
            assert Begun(src, 0) == [OfferFrame(OfferFor(src))];
          }
        case Encrypting(k) =>
          if s.job.stopped.None? && env.open {
            LoopHeadOk(src, s.job, k + 1, env);
            assert Begun(src, k) + [ChunkAt(src, k)] == Begun(src, k + 1);
          }
        case Finishing =>
      }
    }
  }

  function After(src: Source, events: seq<JobEvent>): (s: Sending)
    ensures SendOk(src, s)
  {
    if events == [] then Sending(STARTED, [])
    else
      var s := After(src, events[..|events| - 1]);
      HappensKeepsOk(src, s, events[|events| - 1]);
      Happens(src, s, events[|events| - 1])
  }

  lemma {:induction false} ChunksPrefix(src: Source, n: nat)
    requires n <= ChunkCountFor(|src.bytes|)
    ensures Chunks(src, n) <= Chunks(src, ChunkCountFor(|src.bytes|))
    decreases ChunkCountFor(|src.bytes|) - n
  {
    if n < ChunkCountFor(|src.bytes|) {
      ChunksPrefix(src, n + 1);
    }
  }

  /** Over every run, with stops, drains and channel failures at any await: the
      frames sent are a prefix of the transfer's script; run() returned true
      exactly if all of it was sent. */
  lemma SentIsPrefix(src: Source, events: seq<JobEvent>)
    ensures var s := After(src, events);
            && s.sent <= Script(src)
            && (s.job.at == Returned(true) <==> s.sent == Script(src))
  {
    OkIsPrefix(src, After(src, events));
  }

  lemma OkIsPrefix(src: Source, s: Sending)
    requires SendOk(src, s)
    ensures s.sent <= Script(src) && (s.job.at == Returned(true) <==> s.sent == Script(src))
  {
    if s.job.at != Returned(true) {
      assert Cut(src, s.sent);
      CutIsPrefix(src, s.sent);
    }
  }

  lemma CutIsPrefix(src: Source, sent: seq<FileFrame>)
    requires Cut(src, sent)
    ensures sent <= Script(src) && |sent| < |Script(src)|
  {
    if sent != [] {
      var n :| 0 <= n <= ChunkCountFor(|src.bytes|) && sent == Begun(src, n);
      ChunksPrefix(src, n);
    }
  }

  /** Running on, to the letter: a job told to stop is over, unless a control frame of it is
      under encryption; it throws exactly when a frame is to go out on a closed channel,
      or its next control frame is not let through; and it sends exactly what it has
      encrypted while the channel is open, chunks only if not told to stop. */
  lemma ResumeAnswers(src: Source, j: Job, env: Env)
    requires CanResume(j) && (j.at.Encrypting? ==> j.at.seqNo < ChunkCountFor(|src.bytes|))
    ensures var r := Resume(src, j, env);
            var count := ChunkCountFor(|src.bytes|);
            var sends := j.at.Offering? || j.at.Finishing? || (j.at.Encrypting? && j.stopped.None?);
            var lastOut := (j.at.Offering? && count == 0) || (j.at.Encrypting? && j.at.seqNo + 1 == count);
            && (r.sent.Some? <==> sends && env.open)
            && (r.job.at.Threw? <==>
                  (sends && !env.open) || (j.stopped.None? && !env.ready && (j.at.Hashing? || (lastOut && env.open))))
            && (r.job.at == Returned(true) <==> j.at.Finishing? && env.open)
            && (r.job.at == Returned(false) <==> j.stopped.Some? && !j.at.Finishing? && (j.at.Offering? ==> env.open))
            && r.job.stopped == j.stopped
  {
  }

  /** After a stop the job still sends exactly what it was already encrypting
      outside the chunk loop: the offer or the done frame, never a chunk. */
  lemma StoppedSendsOnlyControl(src: Source, s: Sending, env: Env)
    requires SendOk(src, s) && CanResume(s.job) && s.job.stopped.Some?
    ensures var sent := Resume(src, s.job, env).sent;
            && (sent.Some? <==> env.open && (s.job.at.Offering? || s.job.at.Finishing?))
            && (sent.Some? ==> !sent.value.ChunkFrame?)
  {
  }

  // ---- the receiver, fed by the channel ----

  datatype Outcome = NoOffer | Receiving(r: Receiver) | Complete(file: seq<byte>) | Broken

  /** The receiving side of one transfer, frame by frame. */
  function Receive(hash: seq<byte> -> string, o: Outcome, f: FileFrame): Outcome {
    match f
    case OfferFrame(offer) =>
      if o.NoOffer? && ValidateOffer(offer).None? then Receiving(NewReceiver(offer)) else o
    case ChunkFrame(id, seqNo, bytes) =>
      if !o.Receiving? then o
      else
        var (r, a) := AcceptChunk(o.r, id, seqNo, bytes);
        if a.OutOfOrder? || a.Overflow? then Broken else Receiving(r)
    case DoneFrame(id, sha256) =>
      if !o.Receiving? || o.r.id != id then o
      else
        var file := Finish(o.r, hash, sha256);
        if file.Some? then Complete(file.value) else Broken
  }

  function ReceiveAll(hash: seq<byte> -> string, frames: seq<FileFrame>): Outcome {
    if frames == [] then NoOffer
    else Receive(hash, ReceiveAll(hash, frames[..|frames| - 1]), frames[|frames| - 1])
  }

  /** A transfer sendFile lets through, of a named file. */
  predicate Sendable(src: Source) {
    0 < |src.bytes| <= MAX_FILE_BYTES && 0 < |src.name| <= MAX_FILE_NAME_CHARS
  }

  lemma ConcatAppend(chunks: seq<seq<byte>>, c: seq<byte>)
    ensures Concat(chunks + [c]) == Concat(chunks) + c
  {
    assert (chunks + [c])[..|chunks|] == chunks;
  }

  /** After the offer and `n` chunks the receiver holds exactly the file's first
      `n` chunks of bytes. */
  lemma {:induction false} ReceivedPrefix(hash: seq<byte> -> string, src: Source, n: nat)
    requires Sendable(src) && n <= ChunkCountFor(|src.bytes|)
    ensures var o := ReceiveAll(hash, Begun(src, n));
            var done := Min(|src.bytes|, n * CHUNK_BYTES);
            && o.Receiving? && o.r.id == src.id && o.r.size == |src.bytes|
            && o.r.nextSeq == n && o.r.bytesReceived == done
            && Concat(o.r.chunks) == src.bytes[..done]
  {
    var frames := Begun(src, n);
    if n == 0 {
      assert frames == [OfferFrame(OfferFor(src))] && frames[..0] == [];
      assert ReceiveAll(hash, frames[..0]) == NoOffer;
    } else {
      assert frames[..|frames| - 1] == Begun(src, n - 1);
      ReceivedPrefix(hash, src, n - 1);
      var r := ReceiveAll(hash, Begun(src, n - 1)).r;
      var from, to := Min(|src.bytes|, (n - 1) * CHUNK_BYTES), Min(|src.bytes|, n * CHUNK_BYTES);
      assert from == (n - 1) * CHUNK_BYTES;
      assert frames[|frames| - 1] == ChunkAt(src, n - 1);
      ConcatAppend(r.chunks, src.bytes[from..to]);
      assert src.bytes[..from] + src.bytes[from..to] == src.bytes[..to];
    }
  }

  /** The sender composed with the receiver over a FIFO channel, at every moment
      of every run: whatever part of what was sent has been delivered, no order
      or overflow error was raised, the bytes held are a prefix of the file, and
      once the done frame arrived the result is exactly the file. */
  lemma DeliveredIsPrefixOfFile(hash: seq<byte> -> string, src: Source, events: seq<JobEvent>, delivered: nat)
    requires Sendable(src) && src.sha256 == hash(src.bytes)
    requires delivered <= |After(src, events).sent|
    ensures var o := ReceiveAll(hash, After(src, events).sent[..delivered]);
            && !o.Broken?
            && (o.NoOffer? <==> delivered == 0)
            && (o.Receiving? ==> Concat(o.r.chunks) <= src.bytes && |Concat(o.r.chunks)| == o.r.bytesReceived)
            && (o.Complete? ==> o.file == src.bytes)
            && (o.Complete? <==> delivered == |Script(src)|)
  {
    var sent := After(src, events).sent;
    SentIsPrefix(src, events);
    assert sent[..delivered] == Script(src)[..delivered];
    ScriptPrefixReceived(hash, src, delivered);
  }

  /** A job that holds every byte of the file finishes with it. */
  lemma FullJobFinishes(hash: seq<byte> -> string, r: Receiver, file: seq<byte>)
    requires Concat(r.chunks) == file && r.size == |file| == r.bytesReceived && r.nextSeq == ChunkCountFor(r.size)
    ensures Finish(r, hash, hash(file)) == Some(file)
  {
    assert file + Zeros(0) == file;
  }

  lemma ScriptPrefixReceived(hash: seq<byte> -> string, src: Source, n: nat)
    requires Sendable(src) && src.sha256 == hash(src.bytes) && n <= |Script(src)|
    ensures var o := ReceiveAll(hash, Script(src)[..n]);
            && !o.Broken? && (o.NoOffer? <==> n == 0)
            && (o.Receiving? ==> Concat(o.r.chunks) <= src.bytes && |Concat(o.r.chunks)| == o.r.bytesReceived)
            && (o.Complete? ==> o.file == src.bytes)
            && (o.Complete? <==> n == |Script(src)|)
  {
    var count := ChunkCountFor(|src.bytes|);
    if 0 < n < |Script(src)| {
      ChunksPrefix(src, n - 1);
      assert Script(src)[..n] == Begun(src, n - 1);
      ReceivedPrefix(hash, src, n - 1);
    } else if n == |Script(src)| {
      var frames := Script(src)[..n];
      assert frames == Script(src) && frames[..|frames| - 1] == Begun(src, count);
      ReceivedPrefix(hash, src, count);
      assert src.bytes[..|src.bytes|] == src.bytes;
      FullJobFinishes(hash, ReceiveAll(hash, Begun(src, count)).r, src.bytes);
    }
  }

  /** A receiver that was not discarded holds what it counted. */
  predicate Counts(r: Receiver) {
    |r.chunks| == r.nextSeq && |Concat(r.chunks)| == r.bytesReceived
  }

  lemma AcceptedIsAppended(r: Receiver, id: string, seqNo: nat, bytes: seq<byte>)
    ensures var (r1, a) := AcceptChunk(r, id, seqNo, bytes);
            && (a.Accepted? ==> Concat(r1.chunks) == Concat(r.chunks) + bytes && (Counts(r) ==> Counts(r1)))
            && (!a.Accepted? ==> r1 == r)
  {
    hide Concat;
    ConcatAppend(r.chunks, bytes);
  }

  /** It finishes with its bytes exactly when it has all of them and they have the
      announced hash. */
  lemma FinishIsExact(r: Receiver, hash: seq<byte> -> string, sha256: string)
    requires Counts(r)
    ensures Finish(r, hash, sha256) ==
            if r.bytesReceived == r.size && r.nextSeq == ChunkCountFor(r.size) && hash(Concat(r.chunks)) == sha256
            then Some(Concat(r.chunks)) else None
  {
    assert Concat(r.chunks) + Zeros(0) == Concat(r.chunks);
  }

  /** Whatever frames arrive, a receiver that was not discarded holds as many
      chunks as its sequence number says, as many bytes as its counter says, and
      never more than was offered; a file it completes fits the limit and has the
      hash that a done frame announced. */
  lemma {:induction false} ReceiverStaysWithinOffer(hash: seq<byte> -> string, frames: seq<FileFrame>)
    ensures var o := ReceiveAll(hash, frames);
            o.Receiving? ==>
              && |o.r.chunks| == o.r.nextSeq
              && |Concat(o.r.chunks)| == o.r.bytesReceived <= o.r.size <= MAX_FILE_BYTES
    ensures var o := ReceiveAll(hash, frames);
            o.Complete? ==> |o.file| <= MAX_FILE_BYTES && HashAnnounced(frames, hash(o.file))
  {
    if frames != [] {
      var front := frames[..|frames| - 1];
      ReceiverStaysWithinOffer(hash, front);
      var o := ReceiveAll(hash, front);
      var f := frames[|frames| - 1];
      if o.Receiving? && f.ChunkFrame? {
        ConcatAppend(o.r.chunks, f.bytes);
      }
      if o.Complete? {
        var i :| 0 <= i < |front| && front[i].DoneFrame? && front[i].sha256 == hash(o.file);
        assert frames[i] == front[i];
      }
    }
  }

  predicate HashAnnounced(frames: seq<FileFrame>, sha256: string) {
    exists i :: 0 <= i < |frames| && frames[i].DoneFrame? && frames[i].sha256 == sha256
  }
}
