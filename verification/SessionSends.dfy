/** A file sent when nothing gets in the way: every frame of it goes out, under the
    session key and in order, whatever the channel buffers meanwhile; and a session
    that is given those frames has the file. */
module SessionSends {
  import opened Wrappers
  import opened Protocol
  import opened Base64url
  import opened Wire
  import opened FileTransfer
  import opened TransferTheorems
  import opened Session
  import opened SendDiscipline
  import opened SessionReceives

  // ---- the job ----

  /** The channel drains, and the job runs on while the session can send. */
  function GoesOn(src: Source, s: Sending, buffered: int): Sending
    requires SendOk(src, s)
  {
    HappensKeepsOk(src, s, DrainEvent);
    Happens(src, Happens(src, s, DrainEvent), RunOn(Env(true, true, buffered, SEND_HIGH_WATER_BYTES)))
  }

  function GoesOnAll(src: Source, s: Sending, buffered: seq<int>): (r: Sending)
    requires SendOk(src, s)
    ensures SendOk(src, r)
  {
    if buffered == [] then s
    else
      var t := GoesOnAll(src, s, buffered[..|buffered| - 1]);
      HappensKeepsOk(src, t, DrainEvent);
      HappensKeepsOk(src, Happens(src, t, DrainEvent), RunOn(Env(true, true, buffered[|buffered| - 1], SEND_HIGH_WATER_BYTES)));
      GoesOn(src, t, buffered[|buffered| - 1])
  }

  /** How often it still has to run on, at most. */
  function Left(src: Source, j: Job): int {
    var count := ChunkCountFor(|src.bytes|);
    match j.at
    case Hashing => 2 * count + 3
    case Offering => 2 * count + 2
    case Draining(k) => 2 * (count - k) + 1
    case Encrypting(k) => 2 * (count - k)
    case Finishing => 1
    case Returned(_) => 0
    case Threw => 0
  }

  predicate Undisturbed(j: Job) {
    j.stopped.None? && !j.at.Threw? && j.at != Returned(false)
  }

  lemma GoesOnIsLess(src: Source, s: Sending, buffered: int)
    requires SendOk(src, s) && Undisturbed(s.job)
    ensures var t := GoesOn(src, s, buffered);
            && Undisturbed(t.job) && Left(src, t.job) >= 0
            && (Left(src, s.job) > 0 ==> Left(src, t.job) < Left(src, s.job))
            && (s.job.at == Returned(true) ==> t.job.at == Returned(true))
  {
  }

  lemma {:induction false} GoesOnAllIsLess(src: Source, s: Sending, buffered: seq<int>)
    requires SendOk(src, s) && Undisturbed(s.job)
    ensures var t := GoesOnAll(src, s, buffered);
            && Undisturbed(t.job)
            && (Left(src, t.job) <= 0 || Left(src, t.job) <= Left(src, s.job) - |buffered|)
  {
    if buffered != [] {
      var front := buffered[..|buffered| - 1];
      GoesOnAllIsLess(src, s, front);
      GoesOnIsLess(src, GoesOnAll(src, s, front), buffered[|buffered| - 1]);
    }
  }

  lemma NothingLeft(src: Source, s: Sending)
    requires SendOk(src, s) && Undisturbed(s.job) && Left(src, s.job) <= 0
    ensures s.job.at == Returned(true)
  {
  }

  /** A job that is never stopped, on a channel that stays up and drains, sends the whole
      transfer, whatever was buffered each time it looked. */
  lemma UndisturbedJobSendsAll(src: Source, buffered: seq<int>)
    requires |buffered| >= 2 * ChunkCountFor(|src.bytes|) + 3
    ensures var t := GoesOnAll(src, Sending(STARTED, []), buffered);
            t.job.at == Returned(true) && t.sent == Script(src)
  {
    var s := Sending(STARTED, []);
    GoesOnAllIsLess(src, s, buffered);
    NothingLeft(src, GoesOnAll(src, s, buffered));
    OkIsPrefix(src, GoesOnAll(src, s, buffered));
  }

  /** A job about to send another chunk parks itself exactly while more than the
      high-water mark is buffered, and is parked for nothing else. */
  lemma ParksExactlyAbove(src: Source, s: Sending, env: Env)
    requires SendOk(src, s) && CanResume(s.job)
    ensures var j := Resume(src, s.job, env).job;
            var moreToCome := s.job.stopped.None? && env.open &&
                              ((s.job.at.Offering? && ChunkCountFor(|src.bytes|) > 0)
                               || (s.job.at.Encrypting? && s.job.at.seqNo + 1 < ChunkCountFor(|src.bytes|)));
            j.parked <==> moreToCome && env.buffered > env.highWater
  {
  }

  // ---- the session ----

  /** The channel drains, and the drain loop `id` runs on, finding the file readable and
      so much buffered. */
  function Turn(s: S, id: nat, buffered: int): S {
    var s1 := BufferLow(s);
    if LoopCanRun(s1, id) then LoopRuns(s1, id, true, buffered) else s1
  }

  function Turns(s: S, id: nat, buffered: seq<int>): S {
    if buffered == [] then s else Turn(Turns(s, id, buffered[..|buffered| - 1]), id, buffered[|buffered| - 1])
  }

  /** A frame on the channel, sealed under the key. */
  function OnWire(key: Key, f: FileFrame): Entry {
    match f
    case OfferFrame(o) => SendText(SealedFrame(Sealed(key, Offer(o))))
    case ChunkFrame(id, seqNo, bytes) => SendBinary(SealedChunk(key, id, seqNo, bytes))
    case DoneFrame(id, sha256) => SendText(SealedFrame(Sealed(key, FileDone(id, sha256))))
  }

  /** What sending the frames puts in the log: each on the channel, and the bytes done
      so far after each chunk. */
  function SendLog(key: Key, src: Source, frames: seq<FileFrame>): Log {
    if frames == [] then []
    else
      var f := frames[|frames| - 1];
      SendLog(key, src, frames[..|frames| - 1]) + [OnWire(key, f)] +
      if f.ChunkFrame?
      then [Emit(FileProgress(src.id, Outgoing, Min(|src.bytes|, (f.seqNo + 1) * CHUNK_BYTES), |src.bytes|))]
      else []
  }

  /** Nothing is being sent, and sendFile would start at once. */
  predicate CanStart(s: S, src: Source) {
    && CanSend(s) && 0 < |src.bytes| <= MAX_FILE_BYTES
    && LoopsOk(s.x) && !s.x.draining && s.x.queue == []
  }

  /** The transfers of a session that has taken on the file and nothing since. */
  function TakenOn(s: S, src: Source): Transfers {
    s.x.(draining := true, nextLoop := s.x.nextLoop + 1, returned := s.x.returned + [src.id])
  }

  /** All of it is sent and its arrival is awaited. */
  function AllSent(s: S, src: Source): Transfers {
    TakenOn(s, src).(draining := false, pendingAck := Some(src.id),
                     history := s.x.history + [Block(src, |s.x.returned|, Script(src))])
  }

  function SentAllOf(s: S, src: Source): S
    requires CanStart(s, src)
  {
    s.(x := AllSent(s, src), log := s.log + SendLog(s.hs.key.value, src, Script(src)))
  }

  /** The loop of a transfer that nothing disturbs. */
  predicate Undisturbs(l: Loop, key: Key, src: Source, ticket: nat) {
    && !l.Exiting? && l.src == src && l.key == key && l.ticket == ticket
    && (l.Running? ==>
          && SendOk(src, Sending(l.job, l.sent)) && Undisturbed(l.job)
          && (l.job.at.Offering? || l.job.at.Finishing? ==> l.ctl == Some(key)))
  }

  /** `t` is on its way from `s` to having sent the file, and has done so far exactly
      what that takes. */
  predicate OnItsWay(s: S, t: S, src: Source)
    requires CanStart(s, src)
  {
    var id, key := s.x.nextLoop, s.hs.key.value;
    if id !in t.x.loops then t == SentAllOf(s, src)
    else if t.x.loops[id].Exiting? then
      t == SentAllOf(s, src).(x := AllSent(s, src).(draining := true, loops := map[id := Exiting]))
    else
      var l := t.x.loops[id];
      && Undisturbs(l, key, src, |s.x.returned|)
      && t == s.(x := TakenOn(s, src).(loops := map[id := l], activeSend := if l.Running? then Some(id) else None),
                 log := s.log + if l.Running? then SendLog(key, src, l.sent) else [])
  }

  function TurnsLeft(t: S, id: nat): int {
    if id !in t.x.loops then 0
    else match t.x.loops[id]
      case Exiting => 1
      case Running(src, _, _, job, _, _) => Left(src, job) + 2
      case Reading(src, _, _) => 2 * ChunkCountFor(|src.bytes|) + 6
  }

  lemma StartIsOnItsWay(s: S, src: Source)
    requires CanStart(s, src)
    ensures OnItsWay(s, SendFile(s, src), src)
    ensures TurnsLeft(SendFile(s, src), s.x.nextLoop) == 2 * ChunkCountFor(|src.bytes|) + 6
  {
    var q := Queued(src, |s.x.returned|);
    assert s.x.queue + [q] == [q] && [q][1..] == [];
    assert s.x.loops == map[];
    assert s.log + [] == s.log;
  }

  lemma {:induction false} TurnsGetThere(s: S, t: S, src: Source, buffered: seq<int>)
    requires CanStart(s, src) && OnItsWay(s, t, src)
    ensures var u := Turns(t, s.x.nextLoop, buffered);
            && OnItsWay(s, u, src)
            && (TurnsLeft(u, s.x.nextLoop) <= 0 || TurnsLeft(u, s.x.nextLoop) <= TurnsLeft(t, s.x.nextLoop) - |buffered|)
  {
    hide OnItsWay, TurnsLeft, Turn, CanStart;
    if buffered != [] {
      var front := buffered[..|buffered| - 1];
      TurnsGetThere(s, t, src, front);
      TurnIsOnItsWay(s, Turns(t, s.x.nextLoop, front), src, buffered[|buffered| - 1]);
    }
  }

  lemma TurnIsOnItsWay(s: S, t: S, src: Source, buffered: int)
    requires CanStart(s, src) && OnItsWay(s, t, src)
    ensures var u := Turn(t, s.x.nextLoop, buffered);
            && OnItsWay(s, u, src) && TurnsLeft(u, s.x.nextLoop) >= 0
            && (TurnsLeft(u, s.x.nextLoop) == 0 || TurnsLeft(u, s.x.nextLoop) < TurnsLeft(t, s.x.nextLoop))
  {
    hide LoopRuns, Turn, AllSent;
    var id := s.x.nextLoop;
    if id !in t.x.loops {
      IdleTurn(s, t, src, buffered);
    } else {
      match t.x.loops[id] {
        case Exiting => ExitTurn(s, t, src, buffered);
        case Reading(_, _, _) => ReadTurn(s, t, src, buffered);
        case Running(_, _, _, job, _, _) =>
          if Suspended(job) {
            JobTurn(s, t, src, buffered);
          } else {
            EndTurn(s, t, src, buffered);
          }
      }
    }
  }

  lemma IdleTurn(s: S, t: S, src: Source, buffered: int)
    requires CanStart(s, src) && OnItsWay(s, t, src) && s.x.nextLoop !in t.x.loops
    ensures Turn(t, s.x.nextLoop, buffered) == t
  {
    assert t.x.loops == map[];
  }

  /** With a single loop, the channel draining only releases it. */
  lemma Drained(t: S, id: nat)
    requires t.x.loops.Keys == {id}
    ensures BufferLow(t) == t.(x := t.x.(loops := map[id :=
              if t.x.loops[id].Running? then t.x.loops[id].(job := BufferedLow(t.x.loops[id].job)) else t.x.loops[id]]))
  {
  }

  lemma ExitTurn(s: S, t: S, src: Source, buffered: int)
    requires CanStart(s, src) && OnItsWay(s, t, src) && s.x.nextLoop in t.x.loops && t.x.loops[s.x.nextLoop].Exiting?
    ensures Turn(t, s.x.nextLoop, buffered) == SentAllOf(s, src) && s.x.nextLoop !in SentAllOf(s, src).x.loops
  {
    Drained(t, s.x.nextLoop);
    assert BufferLow(t) == t;
    assert s.x.loops == map[];
    assert t.x.loops - {s.x.nextLoop} == map[];
  }

  lemma ReadTurn(s: S, t: S, src: Source, buffered: int)
    requires CanStart(s, src) && OnItsWay(s, t, src) && s.x.nextLoop in t.x.loops && t.x.loops[s.x.nextLoop].Reading?
    ensures var u := Turn(t, s.x.nextLoop, buffered);
            && OnItsWay(s, u, src)
            && 0 <= TurnsLeft(u, s.x.nextLoop) < TurnsLeft(t, s.x.nextLoop)
  {
    Drained(t, s.x.nextLoop);
    assert BufferLow(t) == t;
    assert t.x.loops[s.x.nextLoop := Running(src, s.hs.key.value, |s.x.returned|, STARTED, None, [])].Keys == {s.x.nextLoop};
  }

  lemma JobTurn(s: S, t: S, src: Source, buffered: int)
    requires CanStart(s, src) && OnItsWay(s, t, src)
    requires s.x.nextLoop in t.x.loops && t.x.loops[s.x.nextLoop].Running? && Suspended(t.x.loops[s.x.nextLoop].job)
    ensures var u := Turn(t, s.x.nextLoop, buffered);
            && OnItsWay(s, u, src)
            && 0 <= TurnsLeft(u, s.x.nextLoop) < TurnsLeft(t, s.x.nextLoop)
  {
    hide RanOn, RanLog, SendLog, AllSent, Undisturbs, Left;
    var id, key := s.x.nextLoop, s.hs.key.value;
    var l := t.x.loops[id];
    var l1 := l.(job := BufferedLow(l.job));
    var t1 := t.(x := t.x.(loops := map[id := l1]));
    Drained(t, id);
    JobGoesOn(t1, key, src, |s.x.returned|, l, buffered);
    var l2 := RanOn(t1, l1, buffered);
    TurnRuns(t, t1, id, buffered);
    assert t1.x.loops[id := l2] == map[id := l2];
    assert (s.log + SendLog(key, src, l.sent)) + RanLog(t1, l1, buffered) == s.log + SendLog(key, src, l2.sent);
  }

  lemma TurnRuns(t: S, t1: S, id: nat, buffered: int)
    requires BufferLow(t) == t1 && id in t1.x.loops && JobCanRun(t1.x.loops[id])
    ensures Turn(t, id, buffered) ==
              t1.(x := PutLoop(t1.x, id, RanOn(t1, t1.x.loops[id], buffered)),
                  log := t1.log + RanLog(t1, t1.x.loops[id], buffered))
  {
    hide RanOn, RanLog;
  }

  /** The loop's job goes on, and what it puts in the log is what its frames are worth. */
  lemma JobGoesOn(t: S, key: Key, src: Source, ticket: nat, l: Loop, buffered: int)
    requires CanSend(t) && t.hs.key == Some(key)
    requires l.Running? && Undisturbs(l, key, src, ticket) && Suspended(l.job)
    ensures var l1 := l.(job := BufferedLow(l.job));
            && JobCanRun(l1)
            && var l2 := RanOn(t, l1, buffered);
               && l2.Running? && Undisturbs(l2, key, src, ticket) && l2.src == l.src == src
               && 0 <= Left(src, l2.job) < Left(src, l.job)
               && SendLog(key, src, l2.sent) == SendLog(key, src, l.sent) + RanLog(t, l1, buffered)
  {
    var x := Sending(l.job, l.sent);
    var l1 := l.(job := BufferedLow(l.job));
    HappensKeepsOk(src, x, DrainEvent);
    RanGoesOn(t, key, src, l, buffered);
    GoesOnIsLess(src, x, buffered);
    HappensKeepsOk(src, Happens(src, x, DrainEvent), RunOn(Env(true, true, buffered, SEND_HIGH_WATER_BYTES)));
    RanLogged(t, key, src, ticket, l, buffered);
  }

  lemma RanGoesOn(t: S, key: Key, src: Source, l: Loop, buffered: int)
    requires CanSend(t) && t.hs.key == Some(key)
    requires l.Running? && l.src == src && SendOk(src, Sending(l.job, l.sent)) && Suspended(l.job)
    ensures var l1 := l.(job := BufferedLow(l.job));
            && JobCanRun(l1)
            && var l2 := RanOn(t, l1, buffered);
               && Sending(l2.job, l2.sent) == GoesOn(src, Sending(l.job, l.sent), buffered)
               && l2 == l.(job := l2.job, sent := l2.sent, ctl := l2.ctl)
               && (l2.job.at.Offering? || l2.job.at.Finishing? ==> l2.ctl == Some(key))
  {
  }

  lemma RanLogged(t: S, key: Key, src: Source, ticket: nat, l: Loop, buffered: int)
    requires CanSend(t) && t.hs.key == Some(key)
    requires l.Running? && Undisturbs(l, key, src, ticket) && Suspended(l.job)
    requires JobCanRun(l.(job := BufferedLow(l.job)))
    ensures var l1 := l.(job := BufferedLow(l.job));
            SendLog(key, src, RanOn(t, l1, buffered).sent) == SendLog(key, src, l.sent) + RanLog(t, l1, buffered)
  {
    hide Resume;
    var l1 := l.(job := BufferedLow(l.job));
    var sent := Ran(t, l1, buffered).sent;
    if sent.Some? {
      assert (l.sent + [sent.value])[..|l.sent|] == l.sent;
      SentUnderKey(t, key, src, l1, buffered);
    } else {
      assert l.sent + [] == l.sent;
    }
  }

  lemma SentUnderKey(t: S, key: Key, src: Source, l: Loop, buffered: int)
    requires JobCanRun(l) && l.key == key && Ran(t, l, buffered).sent.Some?
    requires l.job.at.Offering? || l.job.at.Finishing? ==> l.ctl == Some(key)
    ensures Wired(l, Ran(t, l, buffered).sent.value) == [OnWire(key, Ran(t, l, buffered).sent.value)]
  {
  }

  lemma EndTurn(s: S, t: S, src: Source, buffered: int)
    requires CanStart(s, src) && OnItsWay(s, t, src)
    requires s.x.nextLoop in t.x.loops && t.x.loops[s.x.nextLoop].Running? && !Suspended(t.x.loops[s.x.nextLoop].job)
    ensures var u := Turn(t, s.x.nextLoop, buffered);
            && OnItsWay(s, u, src)
            && 0 <= TurnsLeft(u, s.x.nextLoop) < TurnsLeft(t, s.x.nextLoop)
  {
    hide SendLog, SendFile, Script;
    var id := s.x.nextLoop;
    var l := t.x.loops[id];
    Drained(t, id);
    assert BufferLow(t) == t;
    OkIsPrefix(src, Sending(l.job, l.sent));
    assert l.sent == Script(src);
    EndedRests(t, id);
  }

  /** A job that sent everything is followed by nothing, the queue being empty. */
  lemma EndedRests(t: S, id: nat)
    requires id in t.x.loops && t.x.loops[id].Running? && t.x.loops[id].job.at == Returned(true) && t.x.queue == []
    ensures var l := t.x.loops[id];
            LoopRuns(t, id, true, 0) ==
              t.(x := t.x.(activeSend := None, pendingAck := Some(l.src.id), loops := t.x.loops[id := Exiting],
                           history := t.x.history + [Block(l.src, l.ticket, l.sent)]))
    ensures forall buffered :: LoopRuns(t, id, true, buffered) == LoopRuns(t, id, true, 0)
  {
  }

  /** A file handed to a secure session that sends nothing else goes out whole, whatever
      is buffered each time: exactly its frames, in order and under the session key, with
      the progress after each chunk; then its arrival is awaited, the loop is gone, and
      nothing else of the session has changed. */
  lemma SessionSendsFile(s: S, src: Source, buffered: seq<int>)
    requires CanStart(s, src) && |buffered| >= 2 * ChunkCountFor(|src.bytes|) + 6
    ensures Turns(SendFile(s, src), s.x.nextLoop, buffered) == SentAllOf(s, src)
  {
    StartIsOnItsWay(s, src);
    TurnsGetThere(s, SendFile(s, src), src, buffered);
    NoTurnsLeft(s, Turns(SendFile(s, src), s.x.nextLoop, buffered), src);
  }

  lemma NoTurnsLeft(s: S, t: S, src: Source)
    requires CanStart(s, src) && OnItsWay(s, t, src) && TurnsLeft(t, s.x.nextLoop) <= 0
    ensures t == SentAllOf(s, src)
  {
  }

  // ---- to the other side ----

  /** One entry of the log: what it put on the channel reaches the other session. */
  function EntryReaches(hash: seq<byte> -> string, r: S, e: Entry): S {
    if e.SendText? then Settles(hash, HandleEvent(r, DataText(e.frame), 0), 2)
    else if e.SendBinary? then Settles(hash, HandleEvent(r, DataBinary(e.chunk), 0), 2)
    else r
  }

  /** Everything the log says was sent, in order. */
  function Reaches(hash: seq<byte> -> string, r: S, log: Log): S {
    if log == [] then r else EntryReaches(hash, Reaches(hash, r, log[..|log| - 1]), log[|log| - 1])
  }

  lemma ReachesMore(hash: seq<byte> -> string, r: S, log: Log, e: Entry)
    ensures Reaches(hash, r, log + [e]) == EntryReaches(hash, Reaches(hash, r, log), e)
  {
    assert (log + [e])[..|log|] == log;
  }

  lemma {:induction false} SendLogReaches(hash: seq<byte> -> string, r: S, key: Key, src: Source, frames: seq<FileFrame>)
    ensures Reaches(hash, r, SendLog(key, src, frames)) == TakesAllIn(hash, r, key, frames)
  {
    if frames != [] {
      var front, f := frames[..|frames| - 1], frames[|frames| - 1];
      SendLogReaches(hash, r, key, src, front);
      var log := SendLog(key, src, front);
      ReachesMore(hash, r, log, OnWire(key, f));
      if f.ChunkFrame? {
        ReachesMore(hash, r, log + [OnWire(key, f)],
                    Emit(FileProgress(src.id, Outgoing, Min(|src.bytes|, (f.seqNo + 1) * CHUNK_BYTES), |src.bytes|)));
      } else {
        assert log + [OnWire(key, f)] + [] == log + [OnWire(key, f)];
      }
    }
  }

  /** From one user to the other: what sendFile puts on the channel, delivered to a session
      that is secure under the same key and receives nothing else, tells its user of the
      file, of every chunk, and in the end gives it the file, byte for byte. Nothing else
      of that session changes. */
  lemma FileArrives(hash: seq<byte> -> string, s: S, r: S, src: Source, buffered: seq<int>)
    requires CanStart(s, src) && |buffered| >= 2 * ChunkCountFor(|src.bytes|) + 6
    requires Sendable(src) && src.sha256 == hash(src.bytes)
    requires Ready(r, s.hs.key.value) && r.x.receive.None?
    ensures var t := Turns(SendFile(s, src), s.x.nextLoop, buffered);
            && s.log <= t.log
            && Reaches(hash, r, t.log[|s.log|..]) ==
               r.(log := r.log + [Announced(src)] + Counted(src, ChunkCountFor(|src.bytes|)) + [Emit(FileComplete(src.id, src.bytes))])
  {
    hide Turns, SendFile, Settles, TakesAllIn;
    var key := s.hs.key.value;
    SessionSendsFile(s, src, buffered);
    var t := Turns(SendFile(s, src), s.x.nextLoop, buffered);
    assert t.log[|s.log|..] == SendLog(key, src, Script(src));
    SendLogReaches(hash, r, key, src, Script(src));
    WholeFileTakenIn(hash, r, key, src);
  }
}
