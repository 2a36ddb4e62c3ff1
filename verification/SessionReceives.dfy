/** A session that is sent a file: it gathers the chunks as the receiving job would,
    and what it reports complete is exactly what it was given. */
module SessionReceives {
  import opened Wrappers
  import opened Protocol
  import opened Base64url
  import opened Wire
  import opened FileTransfer
  import opened TransferTheorems
  import opened Session
  import opened SessionSteps
  import opened HandlerSteps
  import opened LoopSteps
  import opened SessionInvariants
  import opened ReceiveReports

  // ---- frame by frame ----

  /** The frame as the channel delivers it, sealed under `key`. */
  function Arrives(key: Key, f: FileFrame): TransportEvent {
    match f
    case OfferFrame(o) => DataText(SealedFrame(Sealed(key, Offer(o))))
    case ChunkFrame(id, seqNo, bytes) => DataBinary(SealedChunk(key, id, seqNo, bytes))
    case DoneFrame(id, sha256) => DataText(SealedFrame(Sealed(key, FileDone(id, sha256))))
  }

  /** The handler runs on until it is idle, at most `n` times. */
  function Settles(hash: seq<byte> -> string, s: S, n: nat): S
    decreases n
  {
    if n == 0 || s.handler == Idle then s else Settles(hash, ResumeHandler(hash, s, 0, 0), n - 1)
  }

  function TakesIn(hash: seq<byte> -> string, s: S, key: Key, f: FileFrame): S {
    Settles(hash, HandleEvent(s, Arrives(key, f), 0), 2)
  }

  function TakesAllIn(hash: seq<byte> -> string, s: S, key: Key, frames: seq<FileFrame>): S {
    if frames == [] then s
    else TakesIn(hash, TakesAllIn(hash, s, key, frames[..|frames| - 1]), key, frames[|frames| - 1])
  }

  /** Secure under this key, and nothing under way in the handler. */
  predicate Ready(s: S, key: Key) {
    s.status == Secure && s.handler == Idle && s.hs.verified && s.hs.key == Some(key)
  }

  /** The verdicts on receives, in order. */
  function Verdicts(log: Log): Log {
    if log == [] then []
    else Verdicts(log[..|log| - 1]) + if IsOutcome(log[|log| - 1]) then [log[|log| - 1]] else []
  }

  lemma VerdictsMore(log: Log, e: Entry)
    ensures Verdicts(log + [e]) == Verdicts(log) + if IsOutcome(e) then [e] else []
  {
    assert (log + [e])[..|log|] == log;
  }

  /** What the receiving job's outcome means for the log. */
  function VerdictOf(o: Outcome, id: string): Log {
    match o
    case Complete(file) => [Emit(FileComplete(id, file))]
    case Broken => [Emit(FileFailed(id, Incoming, Failed))]
    case _ => []
  }

  /** The session `t` has done with the transfer `id` what the receiving job did. */
  predicate DidAs(s: S, t: S, key: Key, o: Outcome, id: string) {
    && Ready(t, key)
    && t.x.receive == (if o.Receiving? then Some(ReceiveJob(o.r, key)) else None)
    && (o.Receiving? ==> o.r.id == id)
    && Verdicts(t.log) == Verdicts(s.log) + VerdictOf(o, id)
  }

  lemma OfferTakenIn(hash: seq<byte> -> string, s: S, key: Key, o: FileOffer)
    requires Ready(s, key)
    ensures TakesIn(hash, s, key, OfferFrame(o)) == HandleOffer(s, o)
  {
    var s1 := s.(handler := Busy(Decrypting(key, Sealed(key, Offer(o)), [])));
    assert HandleEvent(s, Arrives(key, OfferFrame(o)), 0) == s1;
    OfferOpened(s, key, o);
    assert Settles(hash, s1, 2) == Settles(hash, AfterDecrypt(s1, key, Sealed(key, Offer(o)), [], 0), 1);
  }

  lemma OfferOpened(s: S, key: Key, o: FileOffer)
    requires Ready(s, key)
    ensures var s1 := s.(handler := Busy(Decrypting(key, Sealed(key, Offer(o)), [])));
            AfterDecrypt(s1, key, Sealed(key, Offer(o)), [], 0) == HandleOffer(s, o)
    ensures HandleOffer(s, o).handler == Idle
  {
  }

  lemma ChunkTakenIn(hash: seq<byte> -> string, s: S, key: Key, id: string, seqNo: nat, bytes: seq<byte>)
    requires Ready(s, key)
    ensures TakesIn(hash, s, key, ChunkFrame(id, seqNo, bytes)) ==
            if s.x.receive.None? then s else TakeChunk(s, s.x.receive.value, SealedChunk(key, id, seqNo, bytes))
  {
    var frame := SealedChunk(key, id, seqNo, bytes);
    var s1 := HandleBinary(s, frame);
    assert HandleEvent(s, Arrives(key, ChunkFrame(id, seqNo, bytes)), 0) == s1;
    if s.x.receive.Some? {
      var job := s.x.receive.value;
      assert s1.(handler := Idle) == s;
      assert AfterChunk(s1, job, frame) == TakeChunk(s, job, frame);
      TakingIsIdle(s, job, frame);
      assert Settles(hash, s1, 2) == Settles(hash, AfterChunk(s1, job, frame), 1);
    }
  }

  lemma TakingIsIdle(s: S, job: ReceiveJob, frame: Binary)
    requires !frame.OtherBinaryVersion?
    ensures TakeChunk(s, job, frame).handler == s.handler
  {
  }

  lemma DoneTakenIn(hash: seq<byte> -> string, s: S, key: Key, id: string, sha256: string)
    requires Ready(s, key)
    ensures TakesIn(hash, s, key, DoneFrame(id, sha256)) ==
            if s.x.receive.None? || s.x.receive.value.r.id != id then s
            else AfterFinish(hash, s.(x := s.x.(receive := None)), s.x.receive.value, sha256, [])
  {
    var cipher := Sealed(key, FileDone(id, sha256));
    var s1 := s.(handler := Busy(Decrypting(key, cipher, [])));
    assert HandleEvent(s, Arrives(key, DoneFrame(id, sha256)), 0) == s1;
    var s2 := StartFinish(s, id, sha256, []);
    assert s1.(handler := Idle) == s;
    assert AfterDecrypt(s1, key, cipher, [], 0) == s2;
    assert Settles(hash, s1, 2) == Settles(hash, s2, 1);
    if s.x.receive.Some? && s.x.receive.value.r.id == id {
      FinishedTakenIn(hash, s, s.x.receive.value, sha256);
    }
  }

  lemma FinishedTakenIn(hash: seq<byte> -> string, s: S, job: ReceiveJob, sha256: string)
    requires s.handler == Idle
    ensures var s2 := s.(x := s.x.(receive := None), handler := Busy(FinishingFile(job, sha256, [])));
            && Settles(hash, s2, 1) == AfterFinish(hash, s.(x := s.x.(receive := None)), job, sha256, [])
  {
    var s2 := s.(x := s.x.(receive := None), handler := Busy(FinishingFile(job, sha256, [])));
    assert s2.(handler := Idle) == s.(x := s.x.(receive := None));
    assert ResumeHandler(hash, s2, 0, 0) == AfterFinish(hash, s2, job, sha256, []);
    assert Settles(hash, s2, 1) == Settles(hash, ResumeHandler(hash, s2, 0, 0), 0);
  }

  // ---- each as the receiving job ----

  lemma OfferDoesAs(hash: seq<byte> -> string, s: S, t: S, key: Key, offer: FileOffer)
    requires Ready(t, key) && t.x.receive.None? && Verdicts(t.log) == Verdicts(s.log)
    ensures DidAs(s, TakesIn(hash, t, key, OfferFrame(offer)), key, Receive(hash, NoOffer, OfferFrame(offer)), offer.id)
  {
    hide TakesIn, Verdicts, ValidateOffer;
    OfferTakenIn(hash, t, key, offer);
    VerdictsMore(t.log, Emit(FileIncoming(offer.id, offer.name, offer.mime, offer.size)));
    assert Verdicts(s.log) + [] == Verdicts(s.log);
  }

  /** The session after a chunk sealed under the receive's own key. */
  function Chunked(s: S, job: ReceiveJob, f: FileFrame): S
    requires f.ChunkFrame?
  {
    var (r, a) := AcceptChunk(job.r, f.id, f.seqNo, f.bytes);
    match a
    case Accepted(done) =>
      s.(x := s.x.(receive := Some(ReceiveJob(r, job.key))),
         log := s.log + [Emit(FileProgress(job.r.id, Incoming, done, job.r.size))])
    case NoMatch => s.(x := s.x.(receive := Some(job)))
    case _ => s.(x := s.x.(receive := None), log := s.log + [Emit(FileFailed(job.r.id, Incoming, Failed))])
  }

  lemma ChunkIsKept(s: S, job: ReceiveJob, f: FileFrame)
    requires f.ChunkFrame? && s.x.receive == Some(job)
    ensures TakeChunk(s, job, SealedChunk(job.key, f.id, f.seqNo, f.bytes)) == Chunked(s, job, f)
  {
  }

  lemma ChunkDoesAs(hash: seq<byte> -> string, s: S, t: S, key: Key, o: Outcome, id: string, f: FileFrame)
    requires DidAs(s, t, key, o, id) && f.ChunkFrame?
    ensures DidAs(s, TakesIn(hash, t, key, f), key, Receive(hash, o, f), id)
  {
    hide TakesIn, TakeChunk, Verdicts;
    ChunkTakenIn(hash, t, key, f.id, f.seqNo, f.bytes);
    if o.Receiving? {
      ChunkIsKept(t, ReceiveJob(o.r, key), f);
      var (r, a) := AcceptChunk(o.r, f.id, f.seqNo, f.bytes);
      VerdictsMore(t.log, Emit(FileFailed(id, Incoming, Failed)));
      if a.Accepted? {
        VerdictsMore(t.log, Emit(FileProgress(id, Incoming, a.bytesDone, o.r.size)));
      }
    }
  }

  lemma DoneDoesAs(hash: seq<byte> -> string, s: S, t: S, key: Key, o: Outcome, id: string, f: FileFrame)
    requires DidAs(s, t, key, o, id) && f.DoneFrame?
    ensures DidAs(s, TakesIn(hash, t, key, f), key, Receive(hash, o, f), id)
  {
    hide TakesIn, Verdicts;
    DoneTakenIn(hash, t, key, f.id, f.sha256);
    if o.Receiving? && o.r.id == f.id {
      var file := FileTransfer.Finish(o.r, hash, f.sha256);
      VerdictsMore(t.log, if file.Some? then Emit(FileComplete(id, file.value)) else Emit(FileFailed(id, Incoming, Failed)));
    }
  }

  /** One transfer: the offer comes first, and only there. */
  predicate OneTransfer(frames: seq<FileFrame>, id: string) {
    && (frames != [] ==> frames[0].OfferFrame? && frames[0].offer.id == id)
    && forall i :: 0 < i < |frames| ==> !frames[i].OfferFrame?
  }

  /** A secure session with an empty slot refines the receiving job: whatever the frames
      of one transfer that reach it, complete, cut short, out of order or of another
      id, it holds the very job, and reports the very verdict, that the job comes to. */
  lemma {:induction false} SessionReceivesAsJob(hash: seq<byte> -> string, s: S, key: Key, frames: seq<FileFrame>, id: string)
    requires Ready(s, key) && s.x.receive.None? && OneTransfer(frames, id)
    ensures DidAs(s, TakesAllIn(hash, s, key, frames), key, ReceiveAll(hash, frames), id)
  {
    if frames == [] {
      assert Verdicts(s.log) + [] == Verdicts(s.log);
    } else {
      var front, f := frames[..|frames| - 1], frames[|frames| - 1];
      SessionReceivesAsJob(hash, s, key, front, id);
      var t, o := TakesAllIn(hash, s, key, front), ReceiveAll(hash, front);
      if |frames| == 1 {
        assert front == [];
        OfferDoesAs(hash, s, t, key, f.offer);
      } else if f.ChunkFrame? {
        ChunkDoesAs(hash, s, t, key, o, id, f);
      } else {
        DoneDoesAs(hash, s, t, key, o, id, f);
      }
    }
  }

  /** A receive of this file that has its first `n` chunks. */
  predicate HoldsFirst(job: Option<ReceiveJob>, src: Source, n: nat) {
    && job.Some? && job.value.r.id == src.id && job.value.r.size == |src.bytes| && job.value.r.nextSeq == n
    && Concat(job.value.r.chunks) == src.bytes[..Min(|src.bytes|, n * CHUNK_BYTES)]
  }

  lemma ScriptIsOneTransfer(src: Source, n: nat)
    requires n <= |Script(src)|
    ensures OneTransfer(Script(src)[..n], src.id)
  {
    ChunksAreChunks(src, ChunkCountFor(|src.bytes|));
  }

  lemma {:induction false} ChunksAreChunks(src: Source, n: nat)
    requires n <= ChunkCountFor(|src.bytes|)
    ensures forall i :: 0 <= i < n ==> Chunks(src, n)[i].ChunkFrame?
  {
    if n > 0 {
      ChunksAreChunks(src, n - 1);
    }
  }

  /** And so of a file sent as sendFile sends it: after the offer and some chunks the
      session holds the file's first so many bytes, and once all of it has arrived it
      has reported the file complete, byte for byte, and nothing else of it. */
  lemma SessionReceivesFile(hash: seq<byte> -> string, s: S, key: Key, src: Source, n: nat)
    requires Ready(s, key) && s.x.receive.None?
    requires Sendable(src) && src.sha256 == hash(src.bytes) && n <= |Script(src)|
    ensures var t := TakesAllIn(hash, s, key, Script(src)[..n]);
            && Ready(t, key)
            && (if 0 < n < |Script(src)|
                then HoldsFirst(t.x.receive, src, n - 1)
                else t.x.receive.None?)
            && Verdicts(t.log) == Verdicts(s.log) +
                 if n == |Script(src)| then [Emit(FileComplete(src.id, src.bytes))] else []
  {
    ScriptIsOneTransfer(src, n);
    SessionReceivesAsJob(hash, s, key, Script(src)[..n], src.id);
    ScriptPrefixReceived(hash, src, n);
    if 0 < n < |Script(src)| {
      ChunksPrefix(src, n - 1);
      assert Script(src)[..n] == Begun(src, n - 1);
      ReceivedPrefix(hash, src, n - 1);
    }
  }

  // ---- a file as it is sent, to the letter ----

  /** The bytes done so far, after each of the first `n` chunks. */
  function Counted(src: Source, n: nat): Log {
    if n == 0 then []
    else Counted(src, n - 1) + [Emit(FileProgress(src.id, Incoming, Min(|src.bytes|, n * CHUNK_BYTES), |src.bytes|))]
  }

  function Announced(src: Source): Entry {
    Emit(FileIncoming(src.id, src.name, src.mime, |src.bytes|))
  }

  /** The session when it has taken in the offer and the first `n` chunks. */
  function TakenIn(hash: seq<byte> -> string, s: S, key: Key, src: Source, n: nat): S
    requires Sendable(src) && n <= ChunkCountFor(|src.bytes|)
  {
    ReceivedPrefix(hash, src, n);
    s.(x := s.x.(receive := Some(ReceiveJob(ReceiveAll(hash, Begun(src, n)).r, key))),
       log := s.log + [Announced(src)] + Counted(src, n))
  }

  lemma OwnOfferTakenIn(hash: seq<byte> -> string, s: S, key: Key, src: Source)
    requires Ready(s, key) && s.x.receive.None? && Sendable(src)
    ensures TakesAllIn(hash, s, key, Begun(src, 0)) == TakenIn(hash, s, key, src, 0)
  {
    hide TakesIn;
    var frames := Begun(src, 0);
    assert frames == [OfferFrame(OfferFor(src))] && frames[..0] == [];
    OfferTakenIn(hash, s, key, OfferFor(src));
    assert ReceiveAll(hash, frames) == Receive(hash, ReceiveAll(hash, []), frames[0]);
    assert s.log + [Announced(src)] + [] == s.log + [Announced(src)];
  }

  lemma BegunMore(src: Source, n: nat)
    requires 0 < n <= ChunkCountFor(|src.bytes|)
    ensures Begun(src, n) == Begun(src, n - 1) + [ChunkAt(src, n - 1)]
  {
  }

  lemma TakesAllInMore(hash: seq<byte> -> string, s: S, key: Key, frames: seq<FileFrame>, f: FileFrame)
    ensures TakesAllIn(hash, s, key, frames + [f]) == TakesIn(hash, TakesAllIn(hash, s, key, frames), key, f)
  {
    hide TakesIn;
    assert (frames + [f])[..|frames|] == frames;
  }

  lemma ReceiveAllMore(hash: seq<byte> -> string, frames: seq<FileFrame>, f: FileFrame)
    ensures ReceiveAll(hash, frames + [f]) == Receive(hash, ReceiveAll(hash, frames), f)
  {
    hide Receive;
    assert (frames + [f])[..|frames|] == frames;
  }

  lemma {:induction false} ChunksTakenIn(hash: seq<byte> -> string, s: S, key: Key, src: Source, n: nat)
    requires Ready(s, key) && s.x.receive.None? && Sendable(src) && n <= ChunkCountFor(|src.bytes|)
    ensures TakesAllIn(hash, s, key, Begun(src, n)) == TakenIn(hash, s, key, src, n)
  {
    hide TakenIn, TakesAllIn, TakesIn, ReceiveAll, Begun, ChunkAt;
    if n == 0 {
      OwnOfferTakenIn(hash, s, key, src);
    } else {
      ChunksTakenIn(hash, s, key, src, n - 1);
      NextChunkTakenIn(hash, s, key, src, n);
      BegunMore(src, n);
      TakesAllInMore(hash, s, key, Begun(src, n - 1), ChunkAt(src, n - 1));
    }
  }

  lemma NextChunkTakenIn(hash: seq<byte> -> string, s: S, key: Key, src: Source, n: nat)
    requires Ready(s, key) && Sendable(src) && 0 < n <= ChunkCountFor(|src.bytes|)
    ensures TakesIn(hash, TakenIn(hash, s, key, src, n - 1), key, ChunkAt(src, n - 1)) == TakenIn(hash, s, key, src, n)
  {
    hide TakesIn, TakeChunk, ReceiveAll, AcceptChunk;
    var t, f := TakenIn(hash, s, key, src, n - 1), ChunkAt(src, n - 1);
    var job := t.x.receive.value;
    ChunkTakenIn(hash, t, key, f.id, f.seqNo, f.bytes);
    ChunkIsKept(t, job, f);
    NextChunkAccepted(hash, src, n);
    assert s.log + [Announced(src)] + Counted(src, n) == t.log + [Counted(src, n)[|Counted(src, n)| - 1]];
  }

  lemma NextChunkAccepted(hash: seq<byte> -> string, src: Source, n: nat)
    requires Sendable(src) && 0 < n <= ChunkCountFor(|src.bytes|)
    ensures var o, o' := ReceiveAll(hash, Begun(src, n - 1)), ReceiveAll(hash, Begun(src, n));
            var f := ChunkAt(src, n - 1);
            && o.Receiving? && o'.Receiving? && o.r.id == src.id && o.r.size == |src.bytes|
            && AcceptChunk(o.r, f.id, f.seqNo, f.bytes) == (o'.r, Accepted(Min(|src.bytes|, n * CHUNK_BYTES)))
  {
    hide ReceiveAll, Begun, Chunks, Concat;
    ReceivedPrefix(hash, src, n - 1);
    ReceivedPrefix(hash, src, n);
    BegunMore(src, n);
    ReceiveAllMore(hash, Begun(src, n - 1), ChunkAt(src, n - 1));
  }

  /** All of a file arrives: the user is told that it comes, how much of it is there after
      each chunk, and in the end the file, byte for byte; nothing else changes. */
  lemma WholeFileTakenIn(hash: seq<byte> -> string, s: S, key: Key, src: Source)
    requires Ready(s, key) && s.x.receive.None? && Sendable(src) && src.sha256 == hash(src.bytes)
    ensures TakesAllIn(hash, s, key, Script(src)) ==
            s.(log := s.log + [Announced(src)] + Counted(src, ChunkCountFor(|src.bytes|)) + [Emit(FileComplete(src.id, src.bytes))])
  {
    hide TakesIn, ReceiveAll;
    var count := ChunkCountFor(|src.bytes|);
    ChunksTakenIn(hash, s, key, src, count);
    var t := TakenIn(hash, s, key, src, count);
    assert Script(src)[..count + 1] == Begun(src, count) && Script(src)[count + 1] == DoneFrame(src.id, src.sha256);
    ReceivedPrefix(hash, src, count);
    assert src.bytes[..|src.bytes|] == src.bytes;
    FullJobFinishes(hash, t.x.receive.value.r, src.bytes);
    DoneTakenIn(hash, t, key, src.id, src.sha256);
    FinishedLeaves(hash, s, t, src);
  }

  lemma FinishedLeaves(hash: seq<byte> -> string, s: S, t: S, src: Source)
    requires s.handler == Idle && s.x.receive.None? && t.x.receive.Some? && t == s.(x := s.x.(receive := t.x.receive), log := t.log)
    requires t.x.receive.value.r.id == src.id && FileTransfer.Finish(t.x.receive.value.r, hash, src.sha256) == Some(src.bytes)
    ensures AfterFinish(hash, t.(x := t.x.(receive := None)), t.x.receive.value, src.sha256, []) ==
            s.(log := t.log + [Emit(FileComplete(src.id, src.bytes))])
  {
  }
}
