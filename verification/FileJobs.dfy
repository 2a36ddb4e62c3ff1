/** The two transfer jobs as objects. run() is cut at its awaits: each method
    runs the job from one await to the next. */
module FileJobs {
  import opened Wrappers
  import opened Base64url
  import opened Wire
  import opened FileTransfer
  import opened TransferTheorems
  import opened Buffers

  class FileSendJob {
    const src: Source
    const highWater: int
    var at: Point
    var stopped: Option<FailReason>
    var parked: bool
    /** Frames that went out through sendControl and sendBinary. */
    var sent: seq<FileFrame>

    /** Construction and the start of run(), up to its first await. */
    constructor (src: Source, highWater: int)
      ensures this.src == src && this.highWater == highWater
      ensures Valid() && Value() == STARTED && sent == []
    {
      this.src, this.highWater := src, highWater;
      at, stopped, parked, sent := Hashing, None, false, [];
    }

    ghost function Value(): Job
      reads this
    {
      Job(at, stopped, parked)
    }

    /** What went out is exactly the part of the transfer's script that the job's
        await implies, and a parked job is never one that was stopped. */
    ghost predicate Valid()
      reads this
    {
      SendOk(src, Sending(Value(), sent))
    }

    /** From the head of the chunk loop. */
    method LoopHead(seqNo: nat, ready: bool, open: bool, buffered: int)
      modifies `at, `parked
      ensures Value() == FileTransfer.LoopHead(src, old(Value()), seqNo, Env(ready, open, buffered, highWater))
    {
      if stopped.Some? {
        at := Returned(false);
        return;
      }
      if seqNo < ChunkCountFor(|src.bytes|) {
        if buffered > highWater {
          at, parked := Draining(seqNo), true;
        } else {
          at := Encrypting(seqNo);
        }
      } else if !ready {
        at := Threw;
      } else {
        at := Finishing;
      }
    }

    /** run() goes on from its await. At every moment what was sent is a prefix of the
        script, all of it exactly when run() returned true; a job that was stopped
        sends no further chunk. */
    method Resume(ready: bool, open: bool, buffered: int)
      requires Valid() && CanResume(Value())
      modifies `at, `parked, `sent
      ensures Valid()
      ensures old(sent) <= sent <= Script(src) && (at == Returned(true) <==> sent == Script(src))
      ensures stopped.Some? ==> forall i :: |old(sent)| <= i < |sent| ==> !sent[i].ChunkFrame?
      ensures var r := FileTransfer.Resume(src, old(Value()), Env(ready, open, buffered, highWater));
              Value() == r.job && sent == old(sent) + if r.sent.Some? then [r.sent.value] else []
    {
      ghost var before := Sending(Value(), sent);
      ghost var env := Env(ready, open, buffered, highWater);
      RunFrom(ready, open, buffered);
      HappensKeepsOk(src, before, JobEvent.RunOn(env));
      OkIsPrefix(src, Sending(Value(), sent));
    }

    /** From one await to the next. */
    method RunFrom(ready: bool, open: bool, buffered: int)
      requires CanResume(Value()) && (at.Encrypting? ==> at.seqNo < ChunkCountFor(|src.bytes|))
      modifies `at, `parked, `sent
      ensures var r := FileTransfer.Resume(src, old(Value()), Env(ready, open, buffered, highWater));
              Value() == r.job && sent == old(sent) + if r.sent.Some? then [r.sent.value] else []
    {
      match at {
        case Hashing =>
          if stopped.Some? {
            at := Returned(false);
          } else if !ready {
            at := Threw;
          } else {
            at := Offering;
          }
        case Offering =>
          if !open {
            at := Threw;
          } else {
            sent := sent + [OfferFrame(OfferFor(src))];
            LoopHead(0, ready, open, buffered);
          }
        case Draining(seqNo) =>
          at := if stopped.Some? then Returned(false) else Encrypting(seqNo);
        case Encrypting(seqNo) =>
          if stopped.Some? {
            at := Returned(false);
          } else if !open {
            at := Threw;
          } else {
            sent := sent + [ChunkAt(src, seqNo)];
            LoopHead(seqNo + 1, ready, open, buffered);
          }
        case Finishing =>
          if !open {
            at := Threw;
          } else {
            sent := sent + [DoneFrame(src.id, src.sha256)];
            at := Returned(true);
          }
      }
    }

    /** The first reason stands, and nothing keeps the job parked. */
    method Stop(reason: FailReason)
      requires Valid()
      modifies `stopped, `parked
      ensures Valid() && !parked
      ensures stopped == if old(stopped).Some? then old(stopped) else Some(reason)
      ensures Value() == FileTransfer.Stop(old(Value()), reason)
    {
      HappensKeepsOk(src, Sending(Value(), sent), StopCalled(reason));
      if stopped.Some? {
        return;
      }
      stopped := Some(reason);
      ReleaseDrain();
    }

    method ReleaseDrain()
      modifies `parked
      ensures Value() == BufferedLow(old(Value()))
    {
      parked := false;
    }
  }

  class FileReceiveJob {
    const id: string
    const size: nat
    var chunks: seq<seq<byte>>
    var bytesReceived: nat
    var nextSeq: nat
    /** discard() was called: the counters no longer speak of the chunks held. */
    ghost var discarded: bool

    constructor (offer: FileOffer)
      requires offer.size >= 0
      ensures Valid() && Value() == NewReceiver(offer) && !discarded
    {
      id, size := offer.id, offer.size;
      chunks, bytesReceived, nextSeq, discarded := [], 0, 0, false;
    }

    ghost function Value(): Receiver
      reads this
    {
      Receiver(id, size, chunks, bytesReceived, nextSeq)
    }

    /** The bytes held. */
    ghost function Contents(): seq<byte>
      reads this
    {
      Concat(chunks)
    }

    /** Never more than was offered, and as many chunks and bytes as counted. */
    ghost predicate Valid()
      reads this
    {
      bytesReceived <= size && (!discarded ==> |chunks| == nextSeq && |Contents()| == bytesReceived)
    }

    /** A chunk is taken exactly when it is of this transfer, next in order and still
        fits; then its bytes come after those held. Any other changes nothing. */
    method AcceptFrame(transferId: string, seqNo: nat, bytes: seq<byte>) returns (result: Accept)
      requires Valid()
      modifies this
      ensures Valid() && discarded == old(discarded)
      ensures result.Accepted? <==> transferId == id && seqNo == old(nextSeq) && old(bytesReceived) + |bytes| <= size
      ensures result.Accepted? ==> Contents() == old(Contents()) + bytes && result.bytesDone == old(bytesReceived) + |bytes|
      ensures !result.Accepted? ==> Value() == old(Value())
      ensures (Value(), result) == AcceptChunk(old(Value()), transferId, seqNo, bytes)
    {
      AcceptedIsAppended(Value(), transferId, seqNo, bytes);
      if transferId != id {
        return NoMatch;
      }
      if seqNo != nextSeq {
        return OutOfOrder;
      }
      if bytesReceived + |bytes| > size {
        return Overflow;
      }
      chunks := chunks + [bytes];
      nextSeq := nextSeq + 1;
      bytesReceived := bytesReceived + |bytes|;
      result := Accepted(bytesReceived);
    }

    /** Assembles the chunks into one buffer, then compares hashes: the file, exactly
        when it is complete and has the announced hash. */
    method Finish(hash: seq<byte> -> string, sha256: string) returns (file: Option<seq<byte>>)
      requires Valid()
      ensures file == FileTransfer.Finish(Value(), hash, sha256)
      ensures !discarded ==>
                file == if bytesReceived == size && nextSeq == ChunkCountFor(size) && hash(Contents()) == sha256
                        then Some(Contents()) else None
    {
      if !discarded {
        FinishIsExact(Value(), hash, sha256);
      }
      if bytesReceived != size || nextSeq != ChunkCountFor(size) {
        return None;
      }
      var all := new byte[size](_ => 0);
      var offset := 0;
      for i := 0 to |chunks|
        invariant offset == |Concat(chunks[..i])| <= size
        invariant all[..] == Concat(chunks[..i]) + Zeros(size - offset)
      {
        assert chunks[..i + 1][..i] == chunks[..i];
        ConcatPrefixLength(chunks, i + 1);
        if offset + |chunks[i]| > size {
          return None;
        }
        SetBytes(all, offset, chunks[i]);
        offset := offset + |chunks[i]|;
      }
      assert chunks[..|chunks|] == chunks;
      if hash(all[..]) != sha256 {
        return None;
      }
      file := Some(all[..]);
    }

    /** Drops the bytes held. The counters stay as they are, so no later chunk can make
        the job take more than was offered. */
    method Discard()
      requires Valid()
      modifies `chunks, `discarded
      ensures Valid() && Contents() == [] && bytesReceived == old(bytesReceived) && nextSeq == old(nextSeq)
      ensures Value() == old(Value()).(chunks := [])
    {
      chunks := [];
      discarded := true;
    }
  }

  lemma {:induction false} ConcatPrefixLength(chunks: seq<seq<byte>>, n: nat)
    requires n <= |chunks|
    ensures |Concat(chunks[..n])| <= |Concat(chunks)|
    decreases |chunks| - n
  {
    if n < |chunks| {
      assert chunks[..n + 1][..n] == chunks[..n];
      ConcatPrefixLength(chunks, n + 1);
    } else {
      assert chunks[..n] == chunks;
    }
  }
}
