/** Exactly when a re-key agrees: a control frame of a transfer that is still being
    encrypted under a dead key ends some play. */
module LeftOver {
  import opened Wrappers
  import opened Base64url
  import opened Wire
  import opened FileTransfer
  import opened Session
  import opened Reachability
  import opened SessionInvariants
  import opened SendDiscipline
  import opened SendTheorems
  import opened KeyChange
  import opened HandshakeAgreement

  // ---- plays, one move at a time ----

  ghost predicate Becomes(hash: seq<byte> -> string, w: World, w': World) {
    exists moves :: IsPlay(hash, w, moves) && Play(hash, w, moves) == w'
  }

  lemma PlayCons(hash: seq<byte> -> string, w: World, m: Move, rest: seq<Move>)
    requires CanMove(w, m) && IsPlay(hash, Step(hash, w, m), rest)
    ensures IsPlay(hash, w, [m] + rest) && Play(hash, w, [m] + rest) == Play(hash, Step(hash, w, m), rest)
  {
    assert ([m] + rest)[1..] == rest;
  }

  lemma {:induction false} PlayAppend(hash: seq<byte> -> string, w: World, x: seq<Move>, y: seq<Move>)
    requires IsPlay(hash, w, x) && IsPlay(hash, Play(hash, w, x), y)
    ensures IsPlay(hash, w, x + y) && Play(hash, w, x + y) == Play(hash, Play(hash, w, x), y)
    decreases |x|
  {
    if x == [] {
      assert x + y == y;
    } else {
      PlayAppend(hash, Step(hash, w, x[0]), x[1..], y);
      HeadThenMoves(x, y);
      PlayCons(hash, w, x[0], x[1..] + y);
    }
  }

  lemma HeadThenMoves(x: seq<Move>, y: seq<Move>)
    requires x != []
    ensures [x[0]] + (x[1..] + y) == x + y
  {
  }

  /** The two sides in place, `x` being side A or side B. */
  function Placed(isA: bool, x: Side, y: Side): World {
    if isA then World(x, y) else World(y, x)
  }

  lemma Starts(hash: seq<byte> -> string, w: World)
    ensures Becomes(hash, w, w)
  {
    assert IsPlay(hash, w, []);
  }

  /** `x` acts. */
  lemma ActBecomes(hash: seq<byte> -> string, w: World, isA: bool, x: Side, y: Side, act: Act)
    requires Becomes(hash, w, Placed(isA, x, y)) && CanAct(x, y, act)
    ensures Becomes(hash, w, Placed(isA, Acts(hash, x, y, act), y))
  {
    var moves :| IsPlay(hash, w, moves) && Play(hash, w, moves) == Placed(isA, x, y);
    var m := if isA then AActs(act) else BActs(act);
    PlayCons(hash, Placed(isA, x, y), m, []);
    PlayAppend(hash, w, moves, [m] + []);
    assert IsPlay(hash, w, moves + ([m] + []));
  }

  /** So it does in silence. */
  lemma RunsBecomes(hash: seq<byte> -> string, w: World, isA: bool, x: Side, y: Side, priv: nat, s: S)
    requires Becomes(hash, w, Placed(isA, x, y)) && x.s.handler.Busy?
    requires s == ResumeHandler(hash, x.s, priv, 0) && s.log == x.s.log
    ensures Becomes(hash, w, Placed(isA, x.(s := s), y))
  {
    MovedInSilence(x, s);
    ActBecomes(hash, w, isA, x, y, RunsOn(priv, 0));
  }

  lemma ReceivesBecomes(hash: seq<byte> -> string, w: World, isA: bool, x: Side, y: Side, s: S)
    requires Becomes(hash, w, Placed(isA, x, y)) && CanAct(x, y, Receives(0))
    requires s == HandleEvent(x.s, Arrival(y.sent[x.got]), 0) && s.log == x.s.log
    ensures Becomes(hash, w, Placed(isA, x.(s := s, got := x.got + 1), y))
  {
    MovedInSilence(x, s);
    ActBecomes(hash, w, isA, x, y, Receives(0));
  }

  // ---- one side opens its channel ----

  /** `x` after its channel opened and its key `n` went out. */
  function Opened(x: Side, n: nat): Side {
    Side(Opening(x.s, n), true, [SendText(PubFrame(Pub(n)))], x.got)
  }

  /** Able to open its channel. */
  predicate IsClosed(x: Side) {
    !x.up && x.sent == [] && x.got == 0 && x.s.dataOpen && x.s.handler == Idle && x.s.status != Ended
  }

  lemma OpensUp(hash: seq<byte> -> string, w: World, isA: bool, x: Side, y: Side, n: nat)
    requires Becomes(hash, w, Placed(isA, x, y)) && IsClosed(x)
    ensures Becomes(hash, w, Placed(isA, Opened(x, n), y)) && KeyIsSent(Opened(x, n).s)
    ensures Opened(x, n).s.hs.keyPair == Some(n) && Opened(x, n).s.secret == x.s.secret
  {
    OpeningSends(x.s, n);
    var s1 := HandleEvent(x.s, DataOpened, 0);
    OpensSilently(x.s);
    SilentSide(x, s1);
    ActBecomes(hash, w, isA, x, y, Opens(0));
    var x1 := Side(s1, true, [], 0);
    var s2 := s1.(hs := s1.hs.(keyPair := Some(n)), handler := Busy(Exporting(n)));
    RunsBecomes(hash, w, isA, x1, y, n, s2);
    ExportBecomes(hash, w, isA, x1.(s := s2), y, n);
  }

  lemma OpensSilently(s: S)
    requires s.status != Ended
    ensures Silently(s.log, HandleEvent(s, DataOpened, 0).log)
  {
    HandshakeAgreement.FailAllIsSilent(SetStatus(s.(timers := ClearGrace(s.timers)), Securing));
  }

  lemma ExportBecomes(hash: seq<byte> -> string, w: World, isA: bool, x: Side, y: Side, n: nat)
    requires Becomes(hash, w, Placed(isA, x, y)) && x.s.handler == Busy(Exporting(n)) && x.s.dataOpen && x.sent == []
    ensures Becomes(hash, w, Placed(isA, x.(s := AfterExport(x.s, n), sent := [SendText(PubFrame(Pub(n)))]), y))
  {
    ExportSends(x.s, n);
    OneText(x.s.log, PubFrame(Pub(n)));
    ActBecomes(hash, w, isA, x, y, RunsOn(0, 0));
  }

  // ---- it is given the peer's key and derives everything ----

  function ConfirmFrame(s: S): Entry
    requires s.hs.key.Some? && s.hs.expected.Some?
  {
    SendText(SealedFrame(OwnConfirm(s)))
  }

  /** `x` after it was given key `m`, with its key-confirm out. */
  function Derives(x: Side, m: nat): Side
    requires x.s.hs.keyPair.Some?
  {
    var s := Exchanged(x.s, m);
    x.(s := s, sent := x.sent + [ConfirmFrame(s)], got := 1)
  }

  lemma DerivesBecomes(hash: seq<byte> -> string, w: World, isA: bool, x: Side, y: Side, m: nat)
    requires Becomes(hash, w, Placed(isA, x, y)) && x.up && x.got == 0 && KeyIsSent(x.s)
    requires |y.sent| > 0 && y.sent[0] == SendText(PubFrame(Pub(m)))
    ensures Becomes(hash, w, Placed(isA, Derives(x, m), y))
  {
    var shared := DH(x.s.hs.keyPair.value, m);
    GivenKey(hash, w, isA, x, y, m);
    var s1 := x.s.(handler := Busy(Sharing(m, shared)));
    var x1 := x.(s := s1, got := 1);
    RunsBecomes(hash, w, isA, x1, y, 0, s1.(handler := Busy(DerivingKey(m, shared))));
    var s2 := s1.(hs := s1.hs.(key := Some(Key(s1.secret, shared))), handler := Busy(DerivingCode(m, shared)));
    RunsBecomes(hash, w, isA, x1.(s := s1.(handler := Busy(DerivingKey(m, shared)))), y, 0, s2);
    ConfirmBecomes(hash, w, isA, x1.(s := s2), y, m, shared);
  }

  lemma GivenKey(hash: seq<byte> -> string, w: World, isA: bool, x: Side, y: Side, m: nat)
    requires Becomes(hash, w, Placed(isA, x, y)) && x.up && x.got == 0 && KeyIsSent(x.s)
    requires |y.sent| > 0 && y.sent[0] == SendText(PubFrame(Pub(m)))
    ensures var s := x.s.(handler := Busy(Sharing(m, DH(x.s.hs.keyPair.value, m))));
            Becomes(hash, w, Placed(isA, x.(s := s, got := 1), y))
  {
    var s := x.s.(handler := Busy(Importing(Pub(m))));
    TakesKey(hash, x.s, m);
    ReceivesBecomes(hash, w, isA, x, y, s);
    RunsBecomes(hash, w, isA, x.(s := s, got := 1), y, 0, x.s.(handler := Busy(Sharing(m, DH(x.s.hs.keyPair.value, m)))));
  }

  lemma TakesKey(hash: seq<byte> -> string, s: S, m: nat)
    requires KeyIsSent(s)
    ensures HandleEvent(s, DataText(PubFrame(Pub(m))), 0) == s.(handler := Busy(Importing(Pub(m))))
    ensures ResumeHandler(hash, s.(handler := Busy(Importing(Pub(m)))), 0, 0)
         == s.(handler := Busy(Sharing(m, DH(s.hs.keyPair.value, m))))
  {
  }

  lemma ConfirmBecomes(hash: seq<byte> -> string, w: World, isA: bool, x: Side, y: Side, m: nat, shared: SharedSecret)
    requires Becomes(hash, w, Placed(isA, x, y)) && x.s.handler == Busy(DerivingCode(m, shared)) && x.s.dataOpen
    requires x.s.hs.key == Some(Key(x.s.secret, shared)) && x.s.hs.buffer == []
    ensures var t := TranscriptOf(x.s.hs.myPub, m);
            var s := x.s.(hs := x.s.hs.(code := Some(SafetyCode(x.s.secret, shared)), expected := Some(t)));
            Becomes(hash, w, Placed(isA, x.(s := SentConfirm(s, t), sent := x.sent + [ConfirmFrame(s)]), y))
  {
    var t := TranscriptOf(x.s.hs.myPub, m);
    var s1 := x.s.(hs := x.s.hs.(code := Some(SafetyCode(x.s.secret, shared))), handler := Busy(HashingTranscript(t)));
    var s2 := s1.(hs := s1.hs.(expected := Some(t)), handler := Busy(SealingConfirm(s1.hs.key.value, t)));
    HashesTranscript(hash, x.s, m, shared);
    RunsBecomes(hash, w, isA, x, y, 0, s1);
    RunsBecomes(hash, w, isA, x.(s := s1), y, 0, s2);
    SealBecomes(hash, w, isA, x.(s := s2), y, s1.hs.key.value, t);
  }

  lemma HashesTranscript(hash: seq<byte> -> string, s: S, m: nat, shared: SharedSecret)
    requires s.handler == Busy(DerivingCode(m, shared)) && s.hs.key.Some?
    ensures var t := TranscriptOf(s.hs.myPub, m);
            var s1 := s.(hs := s.hs.(code := Some(SafetyCode(s.secret, shared))), handler := Busy(HashingTranscript(t)));
            && ResumeHandler(hash, s, 0, 0) == s1
            && ResumeHandler(hash, s1, 0, 0) ==
               s1.(hs := s1.hs.(expected := Some(t)), handler := Busy(SealingConfirm(s1.hs.key.value, t)))
  {
  }

  lemma SealBecomes(hash: seq<byte> -> string, w: World, isA: bool, x: Side, y: Side, key: Key, t: Transcript)
    requires Becomes(hash, w, Placed(isA, x, y)) && x.s.handler == Busy(SealingConfirm(key, t)) && x.s.dataOpen
    requires x.s.hs.key == Some(key) && x.s.hs.buffer == []
    ensures var confirm := SendText(SealedFrame(Sealed(key, KeyConfirm(t))));
            Becomes(hash, w, Placed(isA, x.(s := SentConfirm(x.s, t), sent := x.sent + [confirm]), y))
  {
    SealingSends(hash, x.s, key, t);
    OneText(x.s.log, SealedFrame(Sealed(key, KeyConfirm(t))));
    ActBecomes(hash, w, isA, x, y, RunsOn(0, 0));
  }

  lemma SealingSends(hash: seq<byte> -> string, s: S, key: Key, t: Transcript)
    requires s.handler == Busy(SealingConfirm(key, t)) && s.dataOpen && s.hs.key == Some(key) && s.hs.buffer == []
    ensures ResumeHandler(hash, s, 0, 0) == SentConfirm(s, t)
  {
  }

  // ---- the frame left over ----

  /** A control frame of the transfer is being encrypted under `key`. */
  predicate StillSends(s: S, id: nat, key: Key) {
    && id in s.x.loops && s.x.loops[id].Running?
    && IsControl(s.x.loops[id].job.at) && !s.x.loops[id].job.parked && s.x.loops[id].ctl == Some(key)
  }

  /** Opening the channel tells the job to stop, which does not hold the frame back. */
  lemma OpeningKeepsFrame(s: S, n: nat, id: nat, key: Key)
    requires StillSends(s, id, key) && s.status != Ended && s.dataOpen
    ensures StillSends(Opening(s, n), id, key)
  {
  }

  function ControlOf(l: Loop): Message
    requires l.Running? && IsControl(l.job.at)
  {
    if l.job.at.Offering? then Offer(OfferFor(l.src)) else FileDone(l.src.id, l.src.sha256)
  }

  lemma FrameGoesOut(s: S, id: nat, key: Key)
    requires StillSends(s, id, key) && s.dataOpen
    ensures LoopCanRun(s, id)
    ensures LoopRuns(s, id, true, 0).log == s.log + [SendText(SealedFrame(Sealed(key, ControlOf(s.x.loops[id]))))]
  {
    var l := s.x.loops[id];
    assert RanLog(s, l, 0) == [SendText(SealedFrame(Sealed(key, ControlOf(l))))];
  }

  lemma SendsLeftOver(hash: seq<byte> -> string, w: World, isA: bool, x: Side, y: Side, id: nat, key: Key)
    returns (x': Side, p: Message)
    requires Becomes(hash, w, Placed(isA, x, y)) && StillSends(x.s, id, key) && x.s.dataOpen
    ensures Becomes(hash, w, Placed(isA, x', y)) && x'.sent == x.sent + [SendText(SealedFrame(Sealed(key, p)))]
  {
    FrameGoesOut(x.s, id, key);
    p := ControlOf(x.s.x.loops[id]);
    OneText(x.s.log, SealedFrame(Sealed(key, p)));
    ActBecomes(hash, w, isA, x, y, LoopGoes(id, true, 0));
    x' := Acts(hash, x, y, LoopGoes(id, true, 0));
  }

  /** The other side, which awaits the key-confirm, cannot open it and ends. */
  lemma CannotOpen(hash: seq<byte> -> string, s: S, c: Cipher)
    requires AwaitsConfirm(s) && !s.hs.verified && c.Sealed? && c.key != s.hs.key.value
    ensures ResumeHandler(hash, s.(handler := Busy(Decrypting(s.hs.key.value, c, []))), 0, 0).status == Ended
  {
    FinishSecuresNothing(s, KeyConfirmFailed, true);
  }

  lemma EndsOnLeftOver(hash: seq<byte> -> string, w: World, isA: bool, x: Side, y: Side, c: Cipher) returns (y': Side)
    requires Becomes(hash, w, Placed(isA, x, y)) && y.up && AwaitsConfirm(y.s) && !y.s.hs.verified
    requires y.got < |x.sent| && x.sent[y.got] == SendText(SealedFrame(c)) && c.Sealed? && c.key != y.s.hs.key.value
    ensures Becomes(hash, w, Placed(isA, x, y')) && y'.s.status == Ended
  {
    assert Placed(isA, x, y) == Placed(!isA, y, x);
    TakesUp(y.s, c, 0);
    var s := y.s.(handler := Busy(Decrypting(y.s.hs.key.value, c, [])));
    ReceivesBecomes(hash, w, !isA, y, x, s);
    y' := FailsToOpen(hash, w, isA, x, y.(s := s, got := y.got + 1), y.s, c);
  }

  lemma FailsToOpen(hash: seq<byte> -> string, w: World, isA: bool, x: Side, y: Side, s: S, c: Cipher) returns (y': Side)
    requires AwaitsConfirm(s) && !s.hs.verified && c.Sealed? && c.key != s.hs.key.value
    requires y.s == s.(handler := Busy(Decrypting(s.hs.key.value, c, [])))
    requires Becomes(hash, w, Placed(!isA, y, x))
    ensures Becomes(hash, w, Placed(isA, x, y')) && y'.s.status == Ended
  {
    CannotOpen(hash, s, c);
    y' := RunsOnBecomes(hash, w, isA, x, y);
  }

  lemma RunsOnBecomes(hash: seq<byte> -> string, w: World, isA: bool, x: Side, y: Side) returns (y': Side)
    requires Becomes(hash, w, Placed(!isA, y, x)) && y.s.handler.Busy?
    ensures Becomes(hash, w, Placed(isA, x, y')) && y'.s == ResumeHandler(hash, y.s, 0, 0)
  {
    ActBecomes(hash, w, !isA, y, x, RunsOn(0, 0));
    y' := Moved(y, ResumeHandler(hash, y.s, 0, 0));
    assert Placed(isA, x, y') == Placed(!isA, y', x);
  }

  /** A session that is not clear holds such a frame, under a key of its own. */
  lemma NotClearStillSends(x: Side) returns (id: nat, key: Key)
    requires AboutToOpen(x) && !Clear(x)
    ensures StillSends(x.s, id, key)
  {
    id :| id in x.s.x.loops && x.s.x.loops[id].Running? && IsControl(x.s.x.loops[id].job.at);
    RunningIsCurrent(x.s.x, id);
    key := x.s.x.loops[id].ctl.value;
  }

  /** Both channels open, the other side derives its key, and then the frame comes. */
  lemma NotClearEnds(hash: seq<byte> -> string, isA: bool, x: Side, y: Side) returns (w: World)
    requires AboutToOpen(x) && AboutToOpen(y) && !Clear(x)
    ensures Becomes(hash, Placed(isA, x, y), w)
    ensures w.a.s.status == Ended || w.b.s.status == Ended
  {
    var w0 := Placed(isA, x, y);
    var id, key := NotClearStillSends(x);
    var n := key.shared.lo + key.shared.hi + 1;
    var y1 := OneAwaits(hash, isA, x, y, n);
    OpeningKeepsFrame(x.s, n, id, key);
    var x1, p := SendsLeftOver(hash, w0, isA, Opened(x, n), y1, id, key);
    var y2 := EndsOnLeftOver(hash, w0, isA, x1, y1, Sealed(key, p));
    w := Placed(isA, x1, y2);
  }

  /** Both channels open and the other side gets as far as awaiting confirmation. */
  lemma OneAwaits(hash: seq<byte> -> string, isA: bool, x: Side, y: Side, n: nat) returns (y': Side)
    requires IsClosed(x) && IsClosed(y)
    ensures Becomes(hash, Placed(isA, x, y), Placed(isA, Opened(x, n), y'))
    ensures KeyIsSent(Opened(x, n).s) && y'.up && y'.got == 1 && AwaitsConfirm(y'.s) && !y'.s.hs.verified
    ensures y'.s.hs.key == Some(Key(y.s.secret, Shared(n, n + 1)))
  {
    var w0 := Placed(isA, x, y);
    Starts(hash, w0);
    OpensUp(hash, w0, isA, x, y, n);
    var x1 := Opened(x, n);
    assert Placed(isA, x1, y) == Placed(!isA, y, x1);
    OpensUp(hash, w0, !isA, y, x1, n + 1);
    var y1 := Opened(y, n + 1);
    DerivesBecomes(hash, w0, !isA, y1, x1, n);
    y' := Derives(y1, n);
    assert Placed(!isA, y', x1) == Placed(isA, x1, y');
  }

  // ---- the theorem ----

  /** Two sessions with one secret agree in every play on their next channel if and
      only if neither drain loop is waiting for the encryption of a control frame:
      an offer or a done frame left over goes out under the dead key, and the other
      end, which awaits the key-confirm, ends the session over it. */
  lemma AgreementIffClear(hash: seq<byte> -> string, w: World)
    requires AboutToOpen(w.a) && AboutToOpen(w.b) && w.a.s.secret == w.b.s.secret
    ensures (forall moves :: IsPlay(hash, w, moves) ==> Agrees(hash, w, moves)) <==> Clear(w.a) && Clear(w.b)
  {
    if Clear(w.a) && Clear(w.b) {
      forall moves | IsPlay(hash, w, moves) ensures Agrees(hash, w, moves) {
        Agreement(hash, w, moves);
      }
    } else {
      var w' := SomeoneEnds(hash, w);
      var moves :| IsPlay(hash, w, moves) && Play(hash, w, moves) == w';
      assert !Agrees(hash, w, moves);
    }
  }

  lemma SomeoneEnds(hash: seq<byte> -> string, w: World) returns (w': World)
    requires AboutToOpen(w.a) && AboutToOpen(w.b) && !(Clear(w.a) && Clear(w.b))
    ensures Becomes(hash, w, w') && (w'.a.s.status == Ended || w'.b.s.status == Ended)
  {
    if !Clear(w.a) {
      w' := NotClearEnds(hash, true, w.a, w.b);
    } else {
      w' := NotClearEnds(hash, false, w.b, w.a);
    }
  }

  // ---- and it happens ----

  /** A session that lost its peer while it was encrypting an offer: a run from a new
      session leads to a side that is about to open its channel and is not clear. */
  lemma LeftOverIsReachable(hash: seq<byte> -> string) returns (x: Side)
    ensures Reaches(hash, Fresh(7, 600_000, 120_000, None), x.s) && AboutToOpen(x) && !Clear(x)
  {
    var s0 := Fresh(7, 600_000, 120_000, None);
    var s1 := SecureAndIdle(hash);
    var s2 := StartsFile(hash, s1);
    LeadsOn(hash, Anything(), s0, s1, s2);
    var s3 := LosesPeer(hash, s2);
    LeadsOn(hash, Anything(), s0, s2, s3);
    LeadsReaches(hash, Anything(), s0, s3);
    FreshSound(7, 600_000, 120_000, None);
    ReachableIsSound(hash, s0, s3);
    x := Side(s3, false, [], 0);
  }

  const ONE_BYTE := Source("f", [0], "f.bin", "", "")

  /** A file is offered, read and hashed. */
  lemma StartsFile(hash: seq<byte> -> string, s: S) returns (t: S)
    requires CanSend(s) && s.handler == Idle && s.x == NO_TRANSFERS
    ensures Leads(hash, Anything(), s, t) && CanSend(t) && t.handler == Idle
    ensures 0 in t.x.loops && t.x.loops[0] == OfferingLoop(Reading(ONE_BYTE, s.hs.key.value, 0), s.hs.key)
    ensures t.x.activeSend == Some(0)
  {
    var l := Reading(ONE_BYTE, s.hs.key.value, 0);
    LeadsBy(hash, Anything(), s, FileOffered(ONE_BYTE));
    TakesUpFile(s, l);
    var s1 := SendFile(s, ONE_BYTE);
    t := ReadsAndHashes(hash, s1, 0, l);
    LeadsOn(hash, Anything(), s, s1, t);
  }

  lemma TakesUpFile(s: S, l: Loop)
    requires CanSend(s) && s.x == NO_TRANSFERS && l == Reading(ONE_BYTE, s.hs.key.value, 0)
    ensures var t := SendFile(s, ONE_BYTE); t == s.(x := t.x) && HoldsLoop(t, 0, l)
  {
  }

  /** The peer is lost: the session enters grace. */
  function Lost(s: S, now: int): S {
    EnterGrace(s, false, now)
  }

  lemma LosesPeer(hash: seq<byte> -> string, s: S) returns (t: S)
    requires CanSend(s) && s.handler == Idle && s.x.activeSend == Some(0)
    requires 0 in s.x.loops && s.x.loops[0].Running? && IsControl(s.x.loops[0].job.at)
    ensures Leads(hash, Anything(), s, t) && t.status == Reconnecting && t.handler == Idle && t.dataOpen
    ensures 0 in t.x.loops && t.x.loops[0].Running? && IsControl(t.x.loops[0].job.at)
  {
    LeadsBy(hash, Anything(), s, Deliver(DataLost, 0));
    t := Lost(s, 0);
    LosingKeepsFrame(s);
  }

  lemma LosingKeepsFrame(s: S)
    requires CanSend(s) && s.handler == Idle && s.x.activeSend == Some(0)
    requires 0 in s.x.loops && s.x.loops[0].Running? && IsControl(s.x.loops[0].job.at)
    ensures var t := Lost(s, 0);
            && t.status == Reconnecting && t.handler == Idle && t.dataOpen
            && 0 in t.x.loops && t.x.loops[0].Running? && IsControl(t.x.loops[0].job.at)
  {
  }
}
