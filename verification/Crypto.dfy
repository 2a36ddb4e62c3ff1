/** Padding, payload encryption and file-chunk framing. AES-GCM is symbolic: an
    encryption and a decryption function that undo each other. */
module Crypto {
  import opened Wrappers
  import opened Protocol
  import opened Base64url
  import opened Text
  import opened Wire
  import opened Buffers

  // ---- padding ----

  const BUCKETS: seq<nat> := [256, 512, 1024, 2048, 4096]

  const MAX_PLAINTEXT := 4095

  /** The first bucket that fits. */
  function BucketFor(needed: nat): Option<nat> {
    if needed <= 256 then Some(256) else if needed <= 512 then Some(512) else if needed <= 1024 then Some(1024)
    else if needed <= 2048 then Some(2048) else if needed <= 4096 then Some(4096) else None
  }

  function Ones(n: nat): (r: seq<byte>)
    ensures |r| == n && forall i :: 0 <= i < n ==> r[i] == 1
  {
    seq(n, i => 1)
  }

  /** Content, a zero byte, and ones up to the bucket; None when nothing fits. */
  function Pad(bytes: seq<byte>): Option<seq<byte>> {
    var bucket := BucketFor(|bytes| + 1);
    if bucket.None? then None else Some(bytes + [0] + Ones(bucket.value - |bytes| - 1))
  }

  method PadPlaintext(bytes: seq<byte>) returns (ok: bool, padded: array<byte>)
    ensures ok <==> Pad(bytes).Some?
    ensures fresh(padded) && (ok ==> padded[..] == Pad(bytes).value)
  {
    var bucket := BucketFor(|bytes| + 1);
    if bucket.None? {
      ok := false;
      padded := new byte[0];
      return;
    }
    ok := true;
    padded := new byte[bucket.value](_ => 1);
    for i := 0 to |bytes|
      invariant padded.Length == bucket.value
      invariant padded[..i] == bytes[..i]
      invariant forall j :: i <= j < padded.Length ==> padded[j] == 1
    {
      padded[i] := bytes[i];
      assert padded[..i + 1] == padded[..i] + [bytes[i]];
    }
    padded[|bytes|] := 0;
    assert padded[..|bytes|] == bytes;
    assert padded[..] == bytes + [0] + Ones(bucket.value - |bytes| - 1);
  }

  /** Position of the first zero byte, or the length. */
  function ZeroIndex(bytes: seq<byte>): (i: nat)
    ensures i <= |bytes| && (i < |bytes| ==> bytes[i] == 0)
    ensures forall j :: 0 <= j < i ==> bytes[j] != 0
  {
    if bytes == [] || bytes[0] == 0 then 0 else 1 + ZeroIndex(bytes[1..])
  }

  function Unpad(padded: seq<byte>): Option<seq<byte>> {
    var i := ZeroIndex(padded);
    if i == |padded| then None else Some(padded[..i])
  }

  /** Padding uses the smallest bucket that fits and fails exactly when none does. */
  lemma PadSmallestBucket(bytes: seq<byte>)
    ensures Pad(bytes).Some? <==> |bytes| <= MAX_PLAINTEXT
    ensures Pad(bytes).Some? ==>
              && |Pad(bytes).value| in BUCKETS && |bytes| < |Pad(bytes).value|
              && forall i :: 0 <= i < |BUCKETS| && |bytes| < BUCKETS[i] ==> |Pad(bytes).value| <= BUCKETS[i]
  {
    if |bytes| <= MAX_PLAINTEXT {
      var n := |Pad(bytes).value|;
      assert BUCKETS[0] == 256 && BUCKETS[1] == 512 && BUCKETS[2] == 1024 && BUCKETS[3] == 2048 && BUCKETS[4] == 4096;
    }
  }

  /** Unpadding gives what stands before the first zero byte, and fails exactly if there is none. */
  lemma UnpadIsExact(padded: seq<byte>, content: seq<byte>)
    ensures Unpad(padded) == Some(content) <==> content < padded && padded[|content|] == 0 && 0 !in content
    ensures Unpad(padded) == None <==> 0 !in padded
  {
    var i := ZeroIndex(padded);
    if content < padded && padded[|content|] == 0 && 0 !in content {
      assert forall j :: 0 <= j < |content| ==> padded[j] == content[j] && content[j] in content;
      assert i == |content|;
      assert padded[..i] == content;
    }
    if i < |padded| {
      assert forall j :: 0 <= j < i ==> padded[..i][j] == padded[j];
      assert padded[..i] < padded && 0 !in padded[..i] && padded[i] in padded;
    }
  }

  /** Unpadding undoes padding exactly for contents without a zero byte. */
  lemma UnpadPad(bytes: seq<byte>)
    requires |bytes| <= MAX_PLAINTEXT
    ensures Pad(bytes).Some?
    ensures Unpad(Pad(bytes).value) == Some(bytes) <==> 0 !in bytes
  {
    var padded := Pad(bytes).value;
    assert padded[|bytes|] == 0;
    assert padded[..|bytes|] == bytes;
    var i := ZeroIndex(padded);
    assert forall j :: 0 <= j < |bytes| ==> padded[j] == bytes[j];
    if i == |bytes| {
      assert padded[..i] == bytes;
    } else {
      assert i < |bytes| && bytes[i] == 0;
      assert |padded[..i]| != |bytes|;
    }
  }

  /** So a content that holds one comes back cut short: everything from its first
      zero byte on is lost, the zero byte alone being the shortest such content. */
  lemma UnpadCutsAtZero(bytes: seq<byte>)
    requires |bytes| <= MAX_PLAINTEXT && 0 in bytes
    ensures Unpad(Pad(bytes).value) == Some(bytes[..ZeroIndex(bytes)]) && ZeroIndex(bytes) < |bytes|
    ensures Unpad(Pad([0]).value) == Some([])
  {
    CutAtZero(bytes);
    assert [0][0] == 0;
    CutAtZero([0]);
  }

  lemma CutAtZero(bytes: seq<byte>)
    requires |bytes| <= MAX_PLAINTEXT && 0 in bytes
    ensures Pad(bytes).Some? && ZeroIndex(bytes) < |bytes|
    ensures Unpad(Pad(bytes).value) == Some(bytes[..ZeroIndex(bytes)])
  {
    var padded := Pad(bytes).value;
    ZeroIndexAppend(bytes, padded[|bytes|..]);
    assert padded == bytes + padded[|bytes|..];
    CutsAlike(bytes, padded, ZeroIndex(bytes));
  }

  lemma CutsAlike(bytes: seq<byte>, padded: seq<byte>, i: nat)
    requires i <= |bytes| && bytes <= padded
    ensures padded[..i] == bytes[..i]
  {
  }

  lemma {:induction false} ZeroIndexAppend(bytes: seq<byte>, more: seq<byte>)
    requires 0 in bytes
    ensures ZeroIndex(bytes + more) == ZeroIndex(bytes) < |bytes|
  {
    if bytes[0] == 0 {
      assert (bytes + more)[0] == 0;
    } else {
      assert (bytes + more)[1..] == bytes[1..] + more;
      ZeroIndexAppend(bytes[1..], more);
    }
  }

  // ---- payloads ----

  type Encrypt<!K> = (K, seq<byte>, seq<byte>) -> seq<byte>
  type Decrypt<!K> = (K, seq<byte>, seq<byte>) -> Option<seq<byte>>

  /** Decryption under the same key and iv recovers the plaintext. */
  ghost predicate Undoes<K(!new)>(dec: Decrypt<K>, enc: Encrypt<K>) {
    forall k: K, iv: seq<byte>, text: seq<byte> :: dec(k, iv, enc(k, iv, text)) == Some(text)
  }

  function EncryptPayload<K>(enc: Encrypt<K>, key: K, iv: seq<byte>, p: Payload<string>): Option<Frame> {
    var padded := Pad(Utf8(Stringify(PayloadRecord(p))));
    if padded.None? then None else Some(EncFrame(Encode(iv), Encode(enc(key, iv, padded.value))))
  }

  function DecryptPayload<K>(dec: Decrypt<K>, key: K, frame: Frame): Option<Payload<string>>
    requires frame.EncFrame?
  {
    var iv, ct := ClientDecode(frame.iv), ClientDecode(frame.ct);
    if iv.None? || ct.None? then None
    else
      var padded := dec(key, iv.value, ct.value);
      if padded.None? then None else OpenPlaintext(padded.value)
  }

  function OpenPlaintext(padded: seq<byte>): Option<Payload<string>> {
    var text := Unpad(padded);
    if text.None? then None
    else
      var json := FromUtf8(text.value);
      if json.None? then None
      else
        var r := Parse(json.value);
        if r.None? then None else PayloadOf(r.value)
  }

  lemma OpenPadded(p: Payload<string>)
    requires |Utf8(Stringify(PayloadRecord(p)))| <= MAX_PLAINTEXT
    ensures var padded := Pad(Utf8(Stringify(PayloadRecord(p))));
            padded.Some? && OpenPlaintext(padded.value) == Some(p)
  {
    var r := PayloadRecord(p);
    JsonNoZeroByte(r);
    UnpadPad(Utf8(Stringify(r)));
    OpensToText(p, Pad(Utf8(Stringify(r))).value);
  }

  lemma OpensToText(p: Payload<string>, padded: seq<byte>)
    requires Unpad(padded) == Some(Utf8(Stringify(PayloadRecord(p))))
    ensures OpenPlaintext(padded) == Some(p)
  {
    var r := PayloadRecord(p);
    Utf8RoundTrip(Stringify(r));
    JsonRoundTrip(r);
    PayloadRecordRoundTrip(p);
  }

  /** What is encrypted decrypts to the same payload, for every payload that
      encryption accepts: those serialising to at most 4095 bytes. */
  lemma PayloadRoundTrip<K(!new)>(enc: Encrypt<K>, dec: Decrypt<K>, key: K, iv: seq<byte>, p: Payload<string>)
    requires Undoes(dec, enc)
    ensures var frame := EncryptPayload(enc, key, iv, p);
            && (frame.Some? <==> |Utf8(Stringify(PayloadRecord(p)))| <= MAX_PLAINTEXT)
            && (frame.Some? ==> frame.value.EncFrame? && DecryptPayload(dec, key, frame.value) == Some(p))
  {
    var bytes := Utf8(Stringify(PayloadRecord(p)));
    PadSmallestBucket(bytes);
    if |bytes| <= MAX_PLAINTEXT {
      OpenPadded(p);
      DecryptEncrypted(enc, dec, key, iv, Pad(bytes).value);
    }
  }

  lemma DecryptEncrypted<K(!new)>(enc: Encrypt<K>, dec: Decrypt<K>, key: K, iv: seq<byte>, padded: seq<byte>)
    requires Undoes(dec, enc)
    ensures DecryptPayload(dec, key, EncFrame(Encode(iv), Encode(enc(key, iv, padded)))) == OpenPlaintext(padded)
  {
    RoundTrip(iv);
    RoundTrip(enc(key, iv, padded));
  }

  // ---- file chunks ----

  const CHUNK_HEADER_BYTES := 12
  const FRAME_HEADER_BYTES := 13
  const GCM_TAG_BYTES := 16
  const ID_BYTES := 8
  const IV_BYTES := 12

  datatype ChunkResult = Chunk(transferId: string, seqNo: nat, bytes: seq<byte>) | BadBinaryVersion | BadBinaryFrame

  /** setUint32, big-endian. */
  function Uint32(n: nat): (r: seq<byte>)
    ensures |r| == 4
  {
    [n / 0x1000000 % 0x100, n / 0x10000 % 0x100, n / 0x100 % 0x100, n % 0x100]
  }

  function FromUint32(b: seq<byte>): nat
    requires |b| == 4
  {
    var b0: int, b1: int, b2: int, b3: int := b[0], b[1], b[2], b[3];
    b0 * 0x1000000 + b1 * 0x10000 + b2 * 0x100 + b3
  }

  /** The plaintext of a chunk: id, sequence number, bytes. */
  function ChunkText(id: seq<byte>, seqNo: nat, chunk: seq<byte>): seq<byte> {
    id + Uint32(seqNo) + chunk
  }

  function ChunkFrame(iv: seq<byte>, ct: seq<byte>): seq<byte> {
    [BINARY_FRAME_VERSION] + iv + ct
  }

  /** encryptFileChunk, filling its two buffers in place. */
  method EncryptFileChunk<K>(enc: Encrypt<K>, key: K, id: seq<byte>, seqNo: nat, chunk: seq<byte>, iv: seq<byte>)
    returns (frame: array<byte>)
    requires |id| == ID_BYTES && |iv| == IV_BYTES
    ensures fresh(frame) && frame[..] == ChunkFrame(iv, enc(key, iv, ChunkText(id, seqNo, chunk)))
  {
    var plaintext := new byte[CHUNK_HEADER_BYTES + |chunk|];
    SetBytes(plaintext, 0, id);
    SetBytes(plaintext, ID_BYTES, Uint32(seqNo));
    SetBytes(plaintext, CHUNK_HEADER_BYTES, chunk);
    assert plaintext[..ID_BYTES] == id;
    assert plaintext[ID_BYTES..CHUNK_HEADER_BYTES] == Uint32(seqNo);
    assert plaintext[CHUNK_HEADER_BYTES..] == chunk;
    assert plaintext[..] == plaintext[..ID_BYTES] + plaintext[ID_BYTES..CHUNK_HEADER_BYTES] + plaintext[CHUNK_HEADER_BYTES..];
    var ct := enc(key, iv, plaintext[..]);
    frame := new byte[FRAME_HEADER_BYTES + |ct|];
    frame[0] := BINARY_FRAME_VERSION;
    SetBytes(frame, 1, iv);
    SetBytes(frame, FRAME_HEADER_BYTES, ct);
    assert frame[1..FRAME_HEADER_BYTES] == iv;
    assert frame[..] == ChunkFrame(iv, ct);
  }

  function DecryptFileChunk<K>(dec: Decrypt<K>, key: K, frame: seq<byte>): ChunkResult {
    if |frame| >= 1 && frame[0] != BINARY_FRAME_VERSION then BadBinaryVersion
    else if |frame| < FRAME_HEADER_BYTES + CHUNK_HEADER_BYTES + GCM_TAG_BYTES then BadBinaryFrame
    else
      var plain := dec(key, frame[1..FRAME_HEADER_BYTES], frame[FRAME_HEADER_BYTES..]);
      if plain.None? || |plain.value| < CHUNK_HEADER_BYTES then BadBinaryFrame
      else Chunk(Encode(plain.value[..ID_BYTES]), FromUint32(plain.value[ID_BYTES..CHUNK_HEADER_BYTES]),
                 plain.value[CHUNK_HEADER_BYTES..])
  }

  lemma Uint32RoundTrip(n: nat)
    requires n < 0x1_0000_0000
    ensures var b := Uint32(n); n == b[0] as int * 0x1000000 + b[1] as int * 0x10000 + b[2] as int * 0x100 + b[3] as int
    ensures FromUint32(Uint32(n)) == n
  {
    assert n == n / 0x100 * 0x100 + n % 0x100;
    assert n / 0x100 == n / 0x10000 * 0x100 + n / 0x100 % 0x100;
    assert n / 0x10000 == n / 0x1000000 * 0x100 + n / 0x10000 % 0x100;
  }

  lemma Uint32OfBytes(b: seq<byte>)
    requires |b| == 4
    ensures FromUint32(b) < 0x1_0000_0000 && Uint32(FromUint32(b)) == b
  {
    var b0: int, b1: int, b2: int, b3: int := b[0], b[1], b[2], b[3];
    var n := FromUint32(b);
    assert n / 0x100 == b0 * 0x10000 + b1 * 0x100 + b2;
    assert n / 0x10000 == b0 * 0x100 + b1;
    assert n / 0x1000000 == b0;
  }

  /** The frame is the version, an iv and a ciphertext that decrypts to this id, number and
      bytes. */
  predicate IsChunkFrame<K>(dec: Decrypt<K>, key: K, frame: seq<byte>, iv: seq<byte>, ct: seq<byte>,
                            id: seq<byte>, seqNo: nat, chunk: seq<byte>) {
    && |iv| == IV_BYTES && |id| == ID_BYTES && seqNo < 0x1_0000_0000 && |ct| >= CHUNK_HEADER_BYTES + GCM_TAG_BYTES
    && frame == ChunkFrame(iv, ct) && dec(key, iv, ct) == Some(ChunkText(id, seqNo, chunk))
  }

  /** Whatever bytes arrive: a frame is of a bad version exactly if it has a first byte and
      that is not the version, and it opens to a chunk exactly if it is one. */
  lemma ChunkOpensExactly<K(!new)>(dec: Decrypt<K>, key: K, frame: seq<byte>, seqNo: nat, chunk: seq<byte>, id: seq<byte>)
    requires |id| == ID_BYTES
    ensures DecryptFileChunk(dec, key, frame) == BadBinaryVersion <==> frame != [] && frame[0] != 1
    ensures DecryptFileChunk(dec, key, frame) == Chunk(Encode(id), seqNo, chunk) <==>
              exists iv, ct :: IsChunkFrame(dec, key, frame, iv, ct, id, seqNo, chunk)
  {
    if DecryptFileChunk(dec, key, frame) == Chunk(Encode(id), seqNo, chunk) {
      OpenedIsChunkFrame(dec, key, frame, seqNo, chunk, id);
    }
    if iv, ct :| IsChunkFrame(dec, key, frame, iv, ct, id, seqNo, chunk) {
      ChunkFrameOpens(dec, key, iv, ct, id, seqNo, chunk);
    }
  }

  lemma OpenedIsChunkFrame<K(!new)>(dec: Decrypt<K>, key: K, frame: seq<byte>, seqNo: nat, chunk: seq<byte>, id: seq<byte>)
    requires |id| == ID_BYTES && DecryptFileChunk(dec, key, frame) == Chunk(Encode(id), seqNo, chunk)
    ensures IsChunkFrame(dec, key, frame, frame[1..FRAME_HEADER_BYTES], frame[FRAME_HEADER_BYTES..], id, seqNo, chunk)
  {
    var iv, ct := frame[1..FRAME_HEADER_BYTES], frame[FRAME_HEADER_BYTES..];
    var plain := dec(key, iv, ct).value;
    EncodeInjective(id, plain[..ID_BYTES]);
    Uint32OfBytes(plain[ID_BYTES..CHUNK_HEADER_BYTES]);
    assert plain == plain[..ID_BYTES] + plain[ID_BYTES..CHUNK_HEADER_BYTES] + plain[CHUNK_HEADER_BYTES..];
    assert frame == [frame[0]] + iv + ct;
  }

  lemma ChunkFrameOpens<K(!new)>(dec: Decrypt<K>, key: K, iv: seq<byte>, ct: seq<byte>, id: seq<byte>, seqNo: nat, chunk: seq<byte>)
    requires IsChunkFrame(dec, key, ChunkFrame(iv, ct), iv, ct, id, seqNo, chunk)
    ensures DecryptFileChunk(dec, key, ChunkFrame(iv, ct)) == Chunk(Encode(id), seqNo, chunk)
  {
    var text, frame := ChunkText(id, seqNo, chunk), ChunkFrame(iv, ct);
    assert frame[1..FRAME_HEADER_BYTES] == iv && frame[FRAME_HEADER_BYTES..] == ct;
    assert text[..ID_BYTES] == id && text[ID_BYTES..CHUNK_HEADER_BYTES] == Uint32(seqNo) && text[CHUNK_HEADER_BYTES..] == chunk;
    Uint32RoundTrip(seqNo);
  }

  /** A chunk frame opens to the id, number and bytes it was made from. */
  lemma ChunkRoundTrip<K(!new)>(enc: Encrypt<K>, dec: Decrypt<K>, key: K, id: seq<byte>, seqNo: nat,
                                chunk: seq<byte>, iv: seq<byte>)
    requires Undoes(dec, enc) && |id| == ID_BYTES && |iv| == IV_BYTES && seqNo < 0x1_0000_0000
    requires var text := ChunkText(id, seqNo, chunk); |enc(key, iv, text)| == |text| + GCM_TAG_BYTES
    ensures var frame := ChunkFrame(iv, enc(key, iv, ChunkText(id, seqNo, chunk)));
            DecryptFileChunk(dec, key, frame) == Chunk(Encode(id), seqNo, chunk)
  {
    var text := ChunkText(id, seqNo, chunk);
    var ct := enc(key, iv, text);
    var frame := ChunkFrame(iv, ct);
    assert frame[1..FRAME_HEADER_BYTES] == iv && frame[FRAME_HEADER_BYTES..] == ct;
    assert text[..ID_BYTES] == id && text[ID_BYTES..CHUNK_HEADER_BYTES] == Uint32(seqNo) && text[CHUNK_HEADER_BYTES..] == chunk;
    Uint32RoundTrip(seqNo);
  }

  // ---- transcript ----

  /** Sort order of strings. */
  predicate Less(a: string, b: string) {
    if a == "" || b == "" then a == "" && b != ""
    else if a[0] != b[0] then a[0] < b[0] else Less(a[1..], b[1..])
  }

  /** The text hashed into the transcript: the two public keys, sorted. */
  function TranscriptText(a: string, b: string): string {
    if Less(b, a) then b + "|" + a else a + "|" + b
  }

  lemma {:induction false} LessIsTotal(a: string, b: string)
    ensures a != b ==> (Less(a, b) <==> !Less(b, a))
    ensures a == b ==> !Less(a, b)
  {
    if a != "" && b != "" && a[0] == b[0] {
      LessIsTotal(a[1..], b[1..]);
      assert a == [a[0]] + a[1..] && b == [b[0]] + b[1..];
    }
  }

  lemma {:induction false} JoinInjective(a: string, b: string, c: string, d: string)
    requires '|' !in a && '|' !in c
    requires a + "|" + b == c + "|" + d
    ensures a == c && b == d
  {
    var s, t := a + "|" + b, c + "|" + d;
    assert s[|a|] == '|' && t[|c|] == '|';
    assert |a| == |c|;
    assert s[..|a|] == a && t[..|c|] == c && s[|a| + 1..] == b && t[|c| + 1..] == d;
  }

  /** Both sides hash the same text whichever key is their own, and the text
      determines the pair of keys. */
  lemma TranscriptIsThePair(a: string, b: string, c: string, d: string)
    requires IsUrlText(a) && IsUrlText(b) && IsUrlText(c) && IsUrlText(d)
    ensures TranscriptText(a, b) == TranscriptText(b, a)
    ensures TranscriptText(a, b) == TranscriptText(c, d) <==> (a == c && b == d) || (a == d && b == c)
  {
    LessIsTotal(a, b);
    LessIsTotal(c, d);
    var (lo, hi) := if Less(b, a) then (b, a) else (a, b);
    var (lo1, hi1) := if Less(d, c) then (d, c) else (c, d);
    assert '|' !in lo && '|' !in lo1;
    if TranscriptText(a, b) == TranscriptText(c, d) {
      JoinInjective(lo, hi, lo1, hi1);
    }
  }
}
