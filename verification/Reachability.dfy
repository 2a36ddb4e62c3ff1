/** Which states of a session lead to which, and the stages of a handshake that
    goes through. */
module Reachability {
  import opened Wrappers
  import opened Protocol
  import opened Base64url
  import opened Wire
  import opened FileTransfer
  import opened Session

  type Permission = Action -> bool

  ghost predicate Reaches(hash: seq<byte> -> string, s: S, t: S) {
    exists actions :: IsRun(hash, s, actions) && Run(hash, s, actions) == t
  }

  predicate Permitted(may: Permission, actions: seq<Action>) {
    forall i :: 0 <= i < |actions| ==> may(actions[i])
  }

  /** Some run of permitted actions leads from `s` to `t`. */
  ghost predicate Leads(hash: seq<byte> -> string, may: Permission, s: S, t: S) {
    exists actions :: IsRun(hash, s, actions) && Permitted(may, actions) && Run(hash, s, actions) == t
  }

  function Anything(): Permission {
    (a: Action) => true
  }

  lemma LeadsReaches(hash: seq<byte> -> string, may: Permission, s: S, t: S)
    requires Leads(hash, may, s, t)
    ensures Reaches(hash, s, t)
  {
  }

  lemma RunCons(hash: seq<byte> -> string, s: S, a: Action, rest: seq<Action>)
    requires Enabled(s, a) && IsRun(hash, Next(hash, s, a), rest)
    ensures IsRun(hash, s, [a] + rest) && Run(hash, s, [a] + rest) == Run(hash, Next(hash, s, a), rest)
  {
    assert ([a] + rest)[1..] == rest;
  }

  lemma {:induction false} RunAppend(hash: seq<byte> -> string, s: S, a: seq<Action>, b: seq<Action>)
    requires IsRun(hash, s, a) && IsRun(hash, Run(hash, s, a), b)
    ensures IsRun(hash, s, a + b) && Run(hash, s, a + b) == Run(hash, Run(hash, s, a), b)
    decreases |a|
  {
    if a == [] {
      assert a + b == b;
    } else {
      RunAppend(hash, Next(hash, s, a[0]), a[1..], b);
      HeadThenTail(a, b);
      RunCons(hash, s, a[0], a[1..] + b);
    }
  }

  lemma HeadThenTail(a: seq<Action>, b: seq<Action>)
    requires a != []
    ensures [a[0]] + (a[1..] + b) == a + b
  {
  }

  lemma LeadsBy(hash: seq<byte> -> string, may: Permission, s: S, a: Action)
    requires Enabled(s, a) && may(a)
    ensures Leads(hash, may, s, Next(hash, s, a))
  {
    RunCons(hash, s, a, []);
    assert Permitted(may, [a] + []);
  }

  lemma LeadsOn(hash: seq<byte> -> string, may: Permission, s: S, t: S, u: S)
    requires Leads(hash, may, s, t) && Leads(hash, may, t, u)
    ensures Leads(hash, may, s, u)
  {
    var a :| IsRun(hash, s, a) && Permitted(may, a) && Run(hash, s, a) == t;
    var b :| IsRun(hash, t, b) && Permitted(may, b) && Run(hash, t, b) == u;
    RunAppend(hash, s, a, b);
    assert Permitted(may, a + b);
  }

  lemma LeadsNext(hash: seq<byte> -> string, may: Permission, s: S, t: S, a: Action)
    requires Leads(hash, may, s, t) && Enabled(t, a) && may(a)
    ensures Leads(hash, may, s, Next(hash, t, a))
  {
    LeadsBy(hash, may, t, a);
    LeadsOn(hash, may, s, t, Next(hash, t, a));
  }

  predicate DeliversSealed(a: Action) {
    a.Deliver? && a.event.DataText? && a.event.frame.SealedFrame?
  }

  /** Everything is permitted but the delivery of ciphertexts. */
  ghost predicate PermitsRest(may: Permission) {
    forall a :: !DeliversSealed(a) ==> may(a)
  }

  // ---- a handshake that goes through ----

  /** The own key is out, nothing is derived yet. */
  predicate KeyIsSent(s: S) {
    && s.status == Securing && s.handler == Idle && s.dataOpen && s.hs.keyPair.Some?
    && s.hs == NO_HANDSHAKE.(keyPair := s.hs.keyPair, myPub := s.hs.keyPair)
  }

  /** The channel opens and the own key `mine` goes out. */
  function Opening(s: S, mine: nat): S {
    var s1 := HandleEvent(s, DataOpened, 0);
    AfterExport(s1.(hs := s1.hs.(keyPair := Some(mine)), handler := Busy(Exporting(mine))), mine)
  }

  lemma OpeningReached(hash: seq<byte> -> string, may: Permission, s: S, mine: nat)
    requires PermitsRest(may)
    requires s.handler == Idle && s.status != Ended && s.dataOpen
    ensures Leads(hash, may, s, Opening(s, mine))
    ensures var r := Opening(s, mine); KeyIsSent(r) && r.hs.keyPair == Some(mine) && r.secret == s.secret
  {
    OpeningSends(s, mine);
    var s1 := Next(hash, s, Deliver(DataOpened, 0));
    LeadsBy(hash, may, s, Deliver(DataOpened, 0));
    LeadsNext(hash, may, s, s1, HandlerRuns(mine, 0));
    LeadsNext(hash, may, s, Next(hash, s1, HandlerRuns(mine, 0)), HandlerRuns(0, 0));
  }

  lemma OpeningSends(s: S, mine: nat)
    requires s.status != Ended && s.dataOpen
    ensures var s1 := HandleEvent(s, DataOpened, 0); s1.handler == Busy(Generating) && s1.dataOpen
    ensures var r := Opening(s, mine); KeyIsSent(r) && r.hs.keyPair == Some(mine) && r.secret == s.secret
  {
  }

  /** A new session whose channel opens. */
  lemma FreshOpens(hash: seq<byte> -> string, may: Permission, secret: nat, mine: nat) returns (s: S)
    requires PermitsRest(may)
    ensures Leads(hash, may, Fresh(secret, 600_000, 120_000, None), s)
    ensures KeyIsSent(s) && s.hs.keyPair == Some(mine) && s.secret == secret
    ensures s.x == Fresh(secret, 600_000, 120_000, None).x
  {
    var s0 := Fresh(secret, 600_000, 120_000, None);
    var s1 := Next(hash, s0, ChannelIs(true));
    LeadsBy(hash, may, s0, ChannelIs(true));
    s := Opening(s1, mine);
    OpeningReached(hash, may, s1, mine);
    IdleTransfersStay(s1, mine);
    LeadsOn(hash, may, s0, s1, s);
  }

  lemma IdleTransfersStay(s: S, mine: nat)
    requires s.x == NO_TRANSFERS && s.status != Ended
    ensures Opening(s, mine).x == s.x
  {
  }

  /** The key-confirm a session sends, and the one it waits for. */
  function OwnConfirm(s: S): Cipher
    requires s.hs.key.Some? && s.hs.expected.Some?
  {
    Sealed(s.hs.key.value, KeyConfirm(s.hs.expected.value))
  }

  /** What a session derives from its own key and the peer's. */
  function Derived(s: S, peer: nat): Handshake
    requires s.hs.keyPair.Some?
  {
    var shared := DH(s.hs.keyPair.value, peer);
    s.hs.(key := Some(Key(s.secret, shared)), code := Some(SafetyCode(s.secret, shared)),
          expected := Some(TranscriptOf(s.hs.myPub, peer)))
  }

  /** The peer's key arrived, everything is derived and the key-confirm sent. */
  function Exchanged(s: S, peer: nat): S
    requires s.hs.keyPair.Some?
  {
    var s1 := s.(hs := Derived(s, peer));
    s1.(log := s.log + [SendText(SealedFrame(OwnConfirm(s1)))])
  }

  lemma ExchangedReached(hash: seq<byte> -> string, may: Permission, s: S, peer: nat)
    requires PermitsRest(may)
    requires KeyIsSent(s)
    ensures Leads(hash, may, s, Exchanged(s, peer))
  {
    var shared := DH(s.hs.keyPair.value, peer);
    var t := s.(handler := Busy(Sharing(peer, shared)));
    var u := s.(hs := s.hs.(key := Some(Key(s.secret, shared))), handler := Busy(DerivingCode(peer, shared)));
    ImportReached(hash, may, s, peer);
    KeyReached(hash, may, t, peer, shared);
    LeadsOn(hash, may, s, t, u);
    DerivedReached(hash, may, u, peer, shared);
    LeadsOn(hash, may, s, u, Exchanged(s, peer));
  }

  lemma KeyReached(hash: seq<byte> -> string, may: Permission, s: S, peer: nat, shared: SharedSecret)
    requires PermitsRest(may)
    requires s.handler == Busy(Sharing(peer, shared))
    ensures Leads(hash, may, s, s.(hs := s.hs.(key := Some(Key(s.secret, shared))), handler := Busy(DerivingCode(peer, shared))))
  {
    LeadsBy(hash, may, s, HandlerRuns(0, 0));
    LeadsNext(hash, may, s, s.(handler := Busy(DerivingKey(peer, shared))), HandlerRuns(0, 0));
  }

  lemma ImportReached(hash: seq<byte> -> string, may: Permission, s: S, peer: nat)
    requires PermitsRest(may)
    requires KeyIsSent(s)
    ensures Leads(hash, may, s, s.(handler := Busy(Sharing(peer, DH(s.hs.keyPair.value, peer)))))
  {
    var a := Deliver(DataText(PubFrame(Pub(peer))), 0);
    LeadsBy(hash, may, s, a);
    LeadsNext(hash, may, s, Next(hash, s, a), HandlerRuns(0, 0));
  }

  lemma DerivedReached(hash: seq<byte> -> string, may: Permission, s: S, peer: nat, shared: SharedSecret)
    requires PermitsRest(may)
    requires s.handler == Busy(DerivingCode(peer, shared)) && s.hs.key == Some(Key(s.secret, shared))
    requires s.hs.buffer == [] && s.dataOpen
    ensures var t := TranscriptOf(s.hs.myPub, peer);
            Leads(hash, may, s, s.(hs := s.hs.(code := Some(SafetyCode(s.secret, shared)), expected := Some(t)), handler := Idle,
                                log := s.log + [SendText(SealedFrame(Sealed(s.hs.key.value, KeyConfirm(t))))]))
  {
    var t := TranscriptOf(s.hs.myPub, peer);
    var s1 := s.(hs := s.hs.(code := Some(SafetyCode(s.secret, shared))), handler := Busy(HashingTranscript(t)));
    var s2 := s1.(hs := s1.hs.(expected := Some(t)));
    LeadsBy(hash, may, s, HandlerRuns(0, 0));
    HashedReached(hash, may, s1, t);
    SealedReached(hash, may, s2, t);
    LeadsOn(hash, may, s, s1, s2.(handler := Busy(SealingConfirm(s.hs.key.value, t))));
    LeadsOn(hash, may, s, s2.(handler := Busy(SealingConfirm(s.hs.key.value, t))), SentConfirm(s2, t));
  }

  lemma HashedReached(hash: seq<byte> -> string, may: Permission, s: S, t: Transcript)
    requires PermitsRest(may)
    requires s.handler == Busy(HashingTranscript(t)) && s.hs.key.Some?
    ensures Leads(hash, may, s, s.(hs := s.hs.(expected := Some(t)), handler := Busy(SealingConfirm(s.hs.key.value, t))))
  {
    LeadsBy(hash, may, s, HandlerRuns(0, 0));
  }

  function SentConfirm(s: S, t: Transcript): S
    requires s.hs.key.Some?
  {
    s.(handler := Idle, log := s.log + [SendText(SealedFrame(Sealed(s.hs.key.value, KeyConfirm(t))))])
  }

  lemma SealedReached(hash: seq<byte> -> string, may: Permission, s: S, t: Transcript)
    requires PermitsRest(may)
    requires s.hs.key.Some? && s.hs.buffer == [] && s.dataOpen
    ensures var s1 := s.(handler := Busy(SealingConfirm(s.hs.key.value, t))); Leads(hash, may, s1, SentConfirm(s, t))
  {
    LeadsBy(hash, may, s.(handler := Busy(SealingConfirm(s.hs.key.value, t))), HandlerRuns(0, 0));
  }

  /** A session that has sent its key-confirm and waits for the peer's. */
  predicate AwaitsConfirm(s: S) {
    s.status == Securing && s.handler == Idle && s.hs.key.Some? && s.hs.expected.Some?
  }

  /** The expected key-confirm was opened. */
  function Secured(s: S): S {
    BecomeSecure(s.(hs := s.hs.(verified := true)))
  }

  lemma SecuredReached(hash: seq<byte> -> string, may: Permission, s: S)
    requires PermitsRest(may) && (forall a :: DeliversSealed(a) ==> may(a))
    requires AwaitsConfirm(s)
    ensures Leads(hash, may, s, Secured(s)) && Secured(s).status == Secure
  {
    var s1 := Opens(s);
    TakenUpReached(hash, may, s);
    OwnConfirmReached(hash, may, s);
    OwnConfirmSecures(s, 0);
    LeadsOn(hash, may, s, s1, Secured(s));
  }

  /** The session opens the key-confirm it sent. */
  function Opens(s: S): S
    requires AwaitsConfirm(s)
  {
    s.(handler := Busy(Decrypting(s.hs.key.value, OwnConfirm(s), [])))
  }

  lemma TakenUpReached(hash: seq<byte> -> string, may: Permission, s: S)
    requires AwaitsConfirm(s) && may(Deliver(DataText(SealedFrame(OwnConfirm(s))), 0))
    ensures Leads(hash, may, s, Opens(s))
  {
    var a := Deliver(DataText(SealedFrame(OwnConfirm(s))), 0);
    TakesUpConfirm(s);
    assert Enabled(s, a) && Next(hash, s, a) == Opens(s);
    LeadsBy(hash, may, s, a);
  }

  lemma OwnConfirmReached(hash: seq<byte> -> string, may: Permission, s: S)
    requires AwaitsConfirm(s) && may(HandlerRuns(0, 0))
    ensures Leads(hash, may, Opens(s), Secured(s))
  {
    OwnConfirmSecures(s, 0);
    assert Next(hash, Opens(s), HandlerRuns(0, 0)) == Secured(s);
    LeadsBy(hash, may, Opens(s), HandlerRuns(0, 0));
  }

  lemma TakesUpConfirm(s: S)
    requires AwaitsConfirm(s)
    ensures HandleEvent(s, DataText(SealedFrame(OwnConfirm(s))), 0)
         == Opens(s)
  {
  }

  lemma OwnConfirmSecures(s: S, now: int)
    requires AwaitsConfirm(s)
    ensures AfterDecrypt(s, s.hs.key.value, OwnConfirm(s), [], now) == Secured(s)
    ensures AfterDecrypt(Opens(s), s.hs.key.value, OwnConfirm(s), [], now) == Secured(s)
    ensures Secured(s).status == Secure
  {
  }

  /** So a new session can become secure. */
  lemma SecureAndIdle(hash: seq<byte> -> string) returns (s: S)
    ensures Leads(hash, Anything(), Fresh(7, 600_000, 120_000, None), s)
    ensures CanSend(s) && s.hs.verified && s.handler == Idle && s.x == NO_TRANSFERS
  {
    var s0 := Fresh(7, 600_000, 120_000, None);
    var s1 := FreshOpens(hash, Anything(), 7, 1);
    var s2 := Exchanged(s1, 2);
    ExchangedReached(hash, Anything(), s1, 2);
    LeadsOn(hash, Anything(), s0, s1, s2);
    SecuredReached(hash, Anything(), s2);
    s := Secured(s2);
    LeadsOn(hash, Anything(), s0, s2, s);
  }
}
