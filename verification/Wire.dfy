/** Frames and payloads of the data channel, and their JSON. */
module Wire {
  import opened Wrappers
  import opened Text

  const WIRE_VERSION := 1
  const CHUNK_BYTES := 16_384
  const MAX_FILE_BYTES := 52_428_800
  const MAX_FILE_NAME_CHARS := 255
  const BINARY_FRAME_VERSION := 1

  datatype CancelReason = BySender | ByReceiver | ByError

  datatype FileOffer = FileOffer(id: string, name: string, mime: string, size: int, chunkSize: int, chunkCount: int)

  /** `H` is the transcript hash: text here, symbolic in module Session. */
  datatype Payload<+H> =
    | KeyConfirm(transcriptHash: H)
    | Identity(displayName: string)
    | Chat(chatId: Option<string>, content: string)
    | Delivered(id: string)
    | Typing(active: bool)
    | End
    | Offer(offer: FileOffer)
    | FileDone(id: string, sha256: string)
    | FileCancel(id: string, reason: CancelReason)
    | FileReceived(id: string)

  datatype Frame = PubkeyFrame(key: string) | EncFrame(iv: string, ct: string)

  datatype ParseResult = Good(frame: Frame) | BadVersion | Malformed

  /** Math.ceil(size / CHUNK_BYTES) for the sizes offers can carry. */
  function ChunkCountFor(size: nat): (n: nat)
    ensures size <= n * CHUNK_BYTES
    ensures n > 0 ==> (n - 1) * CHUNK_BYTES < size
    ensures size == 0 <==> n == 0
  {
    (size + CHUNK_BYTES - 1) / CHUNK_BYTES
  }

  function Str(r: Record, name: string): Option<string> {
    var v := Lookup(r, name);
    if v.Some? && v.value.JString? then Some(v.value.s) else None
  }

  function Num(r: Record, name: string): Option<int> {
    var v := Lookup(r, name);
    if v.Some? && v.value.JNumber? then Some(v.value.n) else None
  }

  // ---- frames ----

  function FrameRecord(f: Frame): Record {
    match f
    case PubkeyFrame(key) => [("v", JNumber(WIRE_VERSION)), ("type", JString("pubkey")), ("key", JString(key))]
    case EncFrame(iv, ct) =>
      [("v", JNumber(WIRE_VERSION)), ("type", JString("enc")), ("iv", JString(iv)), ("ct", JString(ct))]
  }

  function FrameText(f: Frame): string {
    Stringify(FrameRecord(f))
  }

  function FrameOf(r: Record): ParseResult {
    var v := Num(r, "v");
    if v.None? then Malformed
    else if v.value != WIRE_VERSION then BadVersion
    else if Str(r, "type") == Some("pubkey") && Str(r, "key").Some? then Good(PubkeyFrame(Str(r, "key").value))
    else if Str(r, "type") == Some("enc") && Str(r, "iv").Some? && Str(r, "ct").Some? then
      Good(EncFrame(Str(r, "iv").value, Str(r, "ct").value))
    else Malformed
  }

  /** parseFrame. Text that is not JSON and JSON that is not a frame are both
      Malformed here: no caller tells them apart. */
  function ParseFrame(raw: string): ParseResult {
    var r := Parse(raw);
    if r.None? then Malformed else FrameOf(r.value)
  }

  lemma FrameRoundTrip(f: Frame)
    ensures ParseFrame(FrameText(f)) == Good(f)
  {
    JsonRoundTrip(FrameRecord(f));
    FrameRecordRoundTrip(f);
  }

  lemma FrameRecordRoundTrip(f: Frame)
    ensures FrameOf(FrameRecord(f)) == Good(f)
  {
    var r := FrameRecord(f);
    LookupAll(r);
    assert r[0].0 == "v" && r[1].0 == "type";
    match f {
      case PubkeyFrame(key) => assert r[2].0 == "key";
      case EncFrame(iv, ct) => assert r[2].0 == "iv" && r[3].0 == "ct";
    }
  }

  /** The record has all of these fields, whatever else it has. */
  predicate Carries(r: Record, fields: Record) {
    forall i :: 0 <= i < |fields| ==> Lookup(r, fields[i].0) == Some(fields[i].1)
  }

  /** A record is read as a frame exactly if it has all of that frame's fields, and as of a
      bad version exactly if its version is a number but not this one. */
  lemma FrameReadsExactly(r: Record, f: Frame)
    ensures FrameOf(r) == Good(f) <==> Carries(r, FrameRecord(f))
    ensures FrameOf(r) == BadVersion <==> exists v :: v != WIRE_VERSION && Lookup(r, "v") == Some(JNumber(v))
  {
    var fields := FrameRecord(f);
    assert Carries(r, fields) ==> Lookup(r, fields[0].0) == Some(fields[0].1) && Lookup(r, fields[1].0) == Some(fields[1].1)
                                  && Lookup(r, fields[2].0) == Some(fields[2].1);
    if f.EncFrame? {
      assert Carries(r, fields) ==> Lookup(r, fields[3].0) == Some(fields[3].1);
    }
    if FrameOf(r) == BadVersion {
      assert Lookup(r, "v") == Some(JNumber(Num(r, "v").value));
    }
  }

  // ---- payloads ----

  function ReasonText(r: CancelReason): string {
    match r case BySender => "sender" case ByReceiver => "receiver" case ByError => "error"
  }

  function ReasonOf(s: string): Option<CancelReason> {
    if s == "sender" then Some(BySender) else if s == "receiver" then Some(ByReceiver)
    else if s == "error" then Some(ByError) else None
  }

  function PayloadRecord(p: Payload<string>): Record {
    match p
    case KeyConfirm(h) => [("type", JString("key-confirm")), ("transcriptHash", JString(h))]
    case Identity(name) => [("type", JString("identity")), ("displayName", JString(name))]
    case Chat(id, content) =>
      if id.Some? then [("type", JString("chat")), ("id", JString(id.value)), ("content", JString(content))]
      else [("type", JString("chat")), ("content", JString(content))]
    case Delivered(id) => [("type", JString("delivered")), ("id", JString(id))]
    case Typing(active) => [("type", JString("typing")), ("active", JBool(active))]
    case End => [("type", JString("end"))]
    case Offer(o) =>
      [("type", JString("file-offer")), ("id", JString(o.id)), ("name", JString(o.name)), ("mime", JString(o.mime)),
       ("size", JNumber(o.size)), ("chunkSize", JNumber(o.chunkSize)), ("chunkCount", JNumber(o.chunkCount))]
    case FileDone(id, sha256) => [("type", JString("file-done")), ("id", JString(id)), ("sha256", JString(sha256))]
    case FileCancel(id, reason) =>
      [("type", JString("file-cancel")), ("id", JString(id)), ("reason", JString(ReasonText(reason)))]
    case FileReceived(id) => [("type", JString("file-received")), ("id", JString(id))]
  }

  function OfferOf(r: Record): Option<Payload<string>> {
    if Str(r, "id").Some? && Str(r, "name").Some? && Str(r, "mime").Some?
       && Num(r, "size").Some? && Num(r, "chunkSize").Some? && Num(r, "chunkCount").Some? then
      Some(Offer(FileOffer(Str(r, "id").value, Str(r, "name").value, Str(r, "mime").value,
                           Num(r, "size").value, Num(r, "chunkSize").value, Num(r, "chunkCount").value)))
    else None
  }

  /** The payload a parsed object stands for. The program casts without
      checking; an object that is no payload is None here. */
  function PayloadOf(r: Record): Option<Payload<string>> {
    var t, id := Str(r, "type"), Str(r, "id");
    if t == Some("key-confirm") then
      if Str(r, "transcriptHash").Some? then Some(KeyConfirm(Str(r, "transcriptHash").value)) else None
    else if t == Some("identity") then
      if Str(r, "displayName").Some? then Some(Identity(Str(r, "displayName").value)) else None
    else if t == Some("chat") then
      if Str(r, "content").Some? then Some(Chat(id, Str(r, "content").value)) else None
    else if t == Some("delivered") then if id.Some? then Some(Delivered(id.value)) else None
    else if t == Some("typing") then
      if Lookup(r, "active").Some? && Lookup(r, "active").value.JBool? then Some(Typing(Lookup(r, "active").value.b)) else None
    else if t == Some("end") then Some(End)
    else if t == Some("file-offer") then OfferOf(r)
    else if t == Some("file-done") then
      if id.Some? && Str(r, "sha256").Some? then Some(FileDone(id.value, Str(r, "sha256").value)) else None
    else if t == Some("file-cancel") then
      if id.Some? && Str(r, "reason").Some? && ReasonOf(Str(r, "reason").value).Some? then
        Some(FileCancel(id.value, ReasonOf(Str(r, "reason").value).value))
      else None
    else if t == Some("file-received") then if id.Some? then Some(FileReceived(id.value)) else None
    else None
  }

  lemma OfferRoundTrip(p: Payload<string>)
    requires p.Offer?
    ensures PayloadOf(PayloadRecord(p)) == Some(p)
  {
    var r := PayloadRecord(p);
    LookupAll(r);
    assert r[0].0 == "type" && r[1].0 == "id" && r[2].0 == "name" && r[3].0 == "mime";
    assert r[4].0 == "size" && r[5].0 == "chunkSize" && r[6].0 == "chunkCount";
  }

  lemma PayloadRecordRoundTrip(p: Payload<string>)
    ensures PayloadOf(PayloadRecord(p)) == Some(p)
  {
    if p.Offer? {
      OfferRoundTrip(p);
    } else {
      var r := PayloadRecord(p);
      LookupAll(r);
      assert r[0].0 == "type";
      if |r| > 1 {
        assert Lookup(r, r[1].0) == Some(r[1].1);
      } else {
        assert r[..0] == [];
      }
      if |r| > 2 {
        assert Lookup(r, r[2].0) == Some(r[2].1);
      }
      if p.Chat? && p.chatId.None? {
        NoId(r);
      }
    }
  }

  /** An object is read as a payload exactly if it has all of that payload's fields, and no
      id if it is a chat without one. */
  lemma PayloadReadsExactly(r: Record, p: Payload<string>)
    ensures PayloadOf(r) == Some(p) <==> Carries(r, PayloadRecord(p)) && (p.Chat? && p.chatId.None? ==> Str(r, "id").None?)
  {
    if p.Offer? {
      OfferReadsExactly(r, p);
    } else if p.FileCancel? {
      CancelReadsExactly(r, p);
    } else {
      var fields := PayloadRecord(p);
      assert Carries(r, fields) ==> Lookup(r, fields[0].0) == Some(fields[0].1);
      if |fields| > 1 {
        assert Carries(r, fields) ==> Lookup(r, fields[1].0) == Some(fields[1].1);
      }
      if |fields| > 2 {
        assert Carries(r, fields) ==> Lookup(r, fields[2].0) == Some(fields[2].1);
      }
    }
  }

  lemma CancelReadsExactly(r: Record, p: Payload<string>)
    requires p.FileCancel?
    ensures PayloadOf(r) == Some(p) <==> Carries(r, PayloadRecord(p))
  {
    var fields := PayloadRecord(p);
    assert Carries(r, fields) ==> Lookup(r, fields[0].0) == Some(fields[0].1) && Lookup(r, fields[1].0) == Some(fields[1].1)
                                  && Lookup(r, fields[2].0) == Some(fields[2].1);
    assert ReasonOf(ReasonText(p.reason)) == Some(p.reason);
  }

  lemma OfferReadsExactly(r: Record, p: Payload<string>)
    requires p.Offer?
    ensures PayloadOf(r) == Some(p) <==> Carries(r, PayloadRecord(p))
  {
    var fields := PayloadRecord(p);
    if Carries(r, fields) {
      assert Lookup(r, fields[0].0) == Some(fields[0].1) && Lookup(r, fields[1].0) == Some(fields[1].1);
      assert Lookup(r, fields[2].0) == Some(fields[2].1) && Lookup(r, fields[3].0) == Some(fields[3].1);
      assert Lookup(r, fields[4].0) == Some(fields[4].1) && Lookup(r, fields[5].0) == Some(fields[5].1);
      assert Lookup(r, fields[6].0) == Some(fields[6].1);
    }
  }

  lemma NoId(r: Record)
    requires |r| == 2 && r[0].0 == "type" && r[1].0 == "content"
    ensures Lookup(r, "id") == None
  {
    var r1 := r[..1];
    assert r1[..0] == [];
    assert Lookup(r, "id") == Lookup(r1, "id") == Lookup([], "id");
  }
}
