/** Signed recovery tokens as text. HMAC-SHA-256 is a symbolic function `mac`
    of secret and message; nothing is assumed about it. */
module RoomRecovery {
  import opened Wrappers
  import opened Protocol
  import opened Base64url
  import opened Text

  type Mac = (string, string) -> seq<byte>

  function ToRecord(p: RecoveryPayload): Record {
    [("roomId", JString(p.roomId.text)),
     ("createdAt", JNumber(p.createdAt)),
     ("pairedAt", if p.pairedAt.None? then JNull else JNumber(p.pairedAt.value)),
     ("inviteWindowMs", JNumber(p.inviteWindowMs)),
     ("graceDurationMs", JNumber(p.graceDurationMs))]
  }

  predicate IsNumber(v: Option<Json>) { v.Some? && v.value.JNumber? }

  /** The field-type checks of verifyRecoveryToken. */
  function FromRecord(r: Record): Option<RecoveryPayload> {
    var roomId, paired := Lookup(r, "roomId"), Lookup(r, "pairedAt");
    var created, invite, grace := Lookup(r, "createdAt"), Lookup(r, "inviteWindowMs"), Lookup(r, "graceDurationMs");
    if roomId.None? || !roomId.value.JString? || !IsNumber(created)
       || !(paired == Some(JNull) || IsNumber(paired)) || !IsNumber(invite) || !IsNumber(grace) then None
    else Some(RecoveryPayload(RoomId(roomId.value.s), created.value.n,
                              if paired == Some(JNull) then None else Some(paired.value.n),
                              invite.value.n, grace.value.n))
  }

  function Body(p: RecoveryPayload): string {
    Encode(Utf8(Stringify(ToRecord(p))))
  }

  function Sign(mac: Mac, p: RecoveryPayload, secret: string): string {
    Body(p) + "." + Encode(mac(secret, Body(p)))
  }

  /** String.split(".") */
  function Split(s: string): (parts: seq<string>)
    ensures parts != []
  {
    if s == "" then [""]
    else
      var rest := Split(s[1..]);
      if s[0] == '.' then [""] + rest else [[s[0]] + rest[0]] + rest[1..]
  }

  function Verify(mac: Mac, token: string, secret: string): Option<RecoveryPayload> {
    var parts := Split(token);
    if |parts| != 2 || ServerDecode(parts[1]) != Some(mac(secret, parts[0])) then None
    else Open(parts[0])
  }

  /** Decodes and checks an authenticated body. */
  function Open(body: string): Option<RecoveryPayload> {
    var bytes := ServerDecode(body);
    if bytes.None? then None
    else
      var json := FromUtf8(bytes.value);
      if json.None? then None
      else
        var r := Parse(json.value);
        if r.None? then None else FromRecord(r.value)
  }

  lemma {:induction false} SplitNoDot(s: string)
    requires '.' !in s
    ensures Split(s) == [s]
  {
    if s != "" {
      assert '.' !in s[1..];
      SplitNoDot(s[1..]);
      assert s == [s[0]] + s[1..];
    }
  }

  lemma {:induction false} SplitAtDot(a: string, b: string)
    requires '.' !in a && '.' !in b
    ensures Split(a + "." + b) == [a, b]
  {
    var s := a + "." + b;
    if a == "" {
      assert s == "." + b && s[1..] == b;
      SplitNoDot(b);
    } else {
      assert '.' !in a[1..] && a[0] in a;
      assert s[1..] == a[1..] + "." + b;
      SplitAtDot(a[1..], b);
      assert a == [a[0]] + a[1..];
    }
  }

  lemma UrlTextHasNoDot(bytes: seq<byte>)
    ensures '.' !in Encode(bytes)
  {
  }

  lemma RecordRoundTrip(p: RecoveryPayload)
    ensures FromRecord(ToRecord(p)) == Some(p)
  {
    var r := ToRecord(p);
    LookupAll(r);
    assert r[0].0 == "roomId" && r[1].0 == "createdAt" && r[2].0 == "pairedAt";
    assert r[3].0 == "inviteWindowMs" && r[4].0 == "graceDurationMs";
  }

  /** A record passes the checks exactly if it has the five fields of the payload. */
  lemma RecordReadsExactly(r: Record, p: RecoveryPayload)
    ensures FromRecord(r) == Some(p) <==>
              && Lookup(r, "roomId") == Some(JString(p.roomId.text))
              && Lookup(r, "createdAt") == Some(JNumber(p.createdAt))
              && Lookup(r, "pairedAt") == Some(if p.pairedAt.None? then JNull else JNumber(p.pairedAt.value))
              && Lookup(r, "inviteWindowMs") == Some(JNumber(p.inviteWindowMs))
              && Lookup(r, "graceDurationMs") == Some(JNumber(p.graceDurationMs))
  {
  }

  /** The token is a body and the mac of exactly this body under the secret. */
  predicate IsMacked(mac: Mac, token: string, secret: string, body: string, sig: string) {
    && token == body + "." + sig && '.' !in body && '.' !in sig
    && ServerDecode(sig) == Some(mac(secret, body))
  }

  lemma {:induction false} SplitJoins(s: string)
    ensures forall i :: 0 <= i < |Split(s)| ==> '.' !in Split(s)[i]
    ensures |Split(s)| == 1 ==> s == Split(s)[0]
    ensures |Split(s)| == 2 ==> s == Split(s)[0] + "." + Split(s)[1]
  {
    if s != "" {
      SplitJoins(s[1..]);
      assert s == [s[0]] + s[1..];
    }
  }

  /** A token verifies exactly if it is a body and its mac, and the body opens: nothing the
      secret did not sign is ever accepted, and everything it signed that opens is. */
  lemma VerifiesExactly(mac: Mac, token: string, secret: string, p: RecoveryPayload)
    ensures Verify(mac, token, secret) == Some(p) <==>
              exists body, sig :: IsMacked(mac, token, secret, body, sig) && Open(body) == Some(p)
  {
    hide Open, ServerDecode;
    var parts := Split(token);
    SplitJoins(token);
    if Verify(mac, token, secret) == Some(p) {
      assert IsMacked(mac, token, secret, parts[0], parts[1]);
    }
    if body, sig :| IsMacked(mac, token, secret, body, sig) && Open(body) == Some(p) {
      SplitAtDot(body, sig);
    }
  }

  /** A signed body opens to what was signed. */
  lemma OpenBody(p: RecoveryPayload)
    ensures Open(Body(p)) == Some(p)
  {
    var json := Stringify(ToRecord(p));
    RoundTrip(Utf8(json));
    Utf8RoundTrip(json);
    JsonRoundTrip(ToRecord(p));
    RecordRoundTrip(p);
  }

  /** Verifying what was signed gives the payload back, for every payload and secret. */
  lemma VerifySigned(mac: Mac, p: RecoveryPayload, secret: string)
    ensures Verify(mac, Sign(mac, p, secret), secret) == Some(p)
  {
    var sig := mac(secret, Body(p));
    UrlTextHasNoDot(Utf8(Stringify(ToRecord(p))));
    UrlTextHasNoDot(sig);
    SplitAtDot(Body(p), Encode(sig));
    RoundTrip(sig);
    OpenBody(p);
  }

  /** A token signed under one secret verifies under another exactly when the
      two secrets give the same mac for its body. */
  lemma OtherSecret(mac: Mac, p: RecoveryPayload, secret: string, other: string)
    ensures Verify(mac, Sign(mac, p, secret), other) ==
            if mac(other, Body(p)) == mac(secret, Body(p)) then Some(p) else None
  {
    var sig := mac(secret, Body(p));
    UrlTextHasNoDot(Utf8(Stringify(ToRecord(p))));
    UrlTextHasNoDot(sig);
    SplitAtDot(Body(p), Encode(sig));
    RoundTrip(sig);
    OpenBody(p);
  }

  /** Different payloads never share a body, so a signature vouches for one payload. */
  lemma BodyInjective(p: RecoveryPayload, q: RecoveryPayload)
    requires Body(p) == Body(q)
    ensures p == q
  {
    OpenBody(p);
    OpenBody(q);
  }
}
