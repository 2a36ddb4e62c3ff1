/** The two base64url codecs of the repository (server/room-recovery.ts and
    client/crypto.ts), built on btoa and atob, against section 5 of RFC 4648. */
module Base64url {
  import opened Wrappers
  import opened Protocol

  type byte = b: int | 0 <= b < 256
  type sextet = x: int | 0 <= x < 64

  // ---- the reference: RFC 4648 without padding ----

  function Sextets(bytes: seq<byte>): (r: seq<sextet>) {
    if |bytes| == 0 then []
    else if |bytes| == 1 then [bytes[0] / 4, bytes[0] % 4 * 16]
    else if |bytes| == 2 then [bytes[0] / 4, bytes[0] % 4 * 16 + bytes[1] / 16, bytes[1] % 16 * 4]
    else [bytes[0] / 4, bytes[0] % 4 * 16 + bytes[1] / 16, bytes[1] % 16 * 4 + bytes[2] / 64, bytes[2] % 64]
         + Sextets(bytes[3..])
  }

  /** Left-over bits of a final partial group are discarded. */
  function Bytes(s: seq<sextet>): (r: seq<byte>) {
    if |s| < 2 then []
    else
      var w: int, x: int := s[0], s[1];
      if |s| == 2 then [w * 4 + x / 16]
      else
        var y: int := s[2];
        if |s| == 3 then [w * 4 + x / 16, x % 16 * 16 + y / 4]
        else [w * 4 + x / 16, x % 16 * 16 + y / 4, y % 4 * 64 + s[3] as int] + Bytes(s[4..])
  }

  function StdChar(x: sextet): char {
    if x < 26 then 'A' + x as char
    else if x < 52 then 'a' + (x - 26) as char
    else if x < 62 then '0' + (x - 52) as char
    else if x == 62 then '+' else '/'
  }

  function UrlChar(x: sextet): (c: char)
    ensures IsUrlChar(c)
  {
    if x == 62 then '-' else if x == 63 then '_' else StdChar(x)
  }

  predicate IsStdChar(c: char) {
    'A' <= c <= 'Z' || 'a' <= c <= 'z' || '0' <= c <= '9' || c == '+' || c == '/'
  }

  function StdValue(c: char): (x: sextet)
    requires IsStdChar(c)
    ensures StdChar(x) == c
  {
    if 'A' <= c <= 'Z' then c as int - 'A' as int
    else if 'a' <= c <= 'z' then c as int - 'a' as int + 26
    else if '0' <= c <= '9' then c as int - '0' as int + 52
    else if c == '+' then 62 else 63
  }

  function UrlText(s: seq<sextet>): (r: string)
    ensures |r| == |s| && forall i :: 0 <= i < |r| ==> r[i] == UrlChar(s[i])
  {
    seq(|s|, i requires 0 <= i < |s| => UrlChar(s[i]))
  }

  function Encode(bytes: seq<byte>): string {
    UrlText(Sextets(bytes))
  }

  predicate IsUrlText(s: string) {
    forall i :: 0 <= i < |s| ==> IsUrlChar(s[i])
  }

  function Decode(s: string): Option<seq<byte>> {
    if !IsUrlText(s) || |s| % 4 == 1 then None else Some(Bytes(StdValues(ToStd(s))))
  }

  // ---- the platform functions ----

  function StdText(s: seq<sextet>): (r: string)
    ensures |r| == |s| && forall i :: 0 <= i < |r| ==> r[i] == StdChar(s[i])
  {
    seq(|s|, i requires 0 <= i < |s| => StdChar(s[i]))
  }

  predicate IsStdText(s: string) {
    forall i :: 0 <= i < |s| ==> IsStdChar(s[i])
  }

  function StdValues(s: string): (r: seq<sextet>)
    requires IsStdText(s)
    ensures |r| == |s| && forall i :: 0 <= i < |r| ==> r[i] == StdValue(s[i])
  {
    seq(|s|, i requires 0 <= i < |s| => StdValue(s[i]))
  }

  function Equals(n: nat): (r: string)
    ensures |r| == n && forall i :: 0 <= i < n ==> r[i] == '='
  {
    seq(n, i => '=')
  }

  /** btoa on the characters 0..255, which the programs build byte by byte. */
  function Btoa(binary: seq<byte>): string {
    StdText(Sextets(binary)) + Equals((3 - |binary| % 3) % 3)
  }

  predicate IsSpace(c: char) {
    c == ' ' || c == '\t' || c == '\n' || c == '\r' || c as int == 12
  }

  function StripSpaces(s: string): string {
    if s == "" then "" else (if IsSpace(s[0]) then "" else [s[0]]) + StripSpaces(s[1..])
  }

  /** Drops one or two trailing '=' of a text whose length 4 divides. */
  function StripPadding(s: string): string {
    if |s| % 4 != 0 || |s| == 0 || s[|s| - 1] != '=' then s
    else if s[|s| - 2] != '=' then s[..|s| - 1]
    else s[..|s| - 2]
  }

  /** atob: forgiving-base64 decode of the HTML and Infra standards; None when it throws. */
  function Atob(s: string): Option<seq<byte>> {
    var t := StripPadding(StripSpaces(s));
    if |t| % 4 == 1 || !IsStdText(t) then None else Some(Bytes(StdValues(t)))
  }

  function Replace(s: string, from: char, to: char): (r: string)
    ensures |r| == |s| && forall i :: 0 <= i < |r| ==> r[i] == if s[i] == from then to else s[i]
  {
    seq(|s|, i requires 0 <= i < |s| => if s[i] == from then to else s[i])
  }

  function Remove(s: string, c: char): string {
    if s == "" then "" else (if s[0] == c then "" else [s[0]]) + Remove(s[1..], c)
  }

  function StripTrailing(s: string, c: char): string {
    if s != "" && s[|s| - 1] == c then StripTrailing(s[..|s| - 1], c) else s
  }

  /** '-' and '_' back to '+' and '/'. */
  function ToStd(s: string): (r: string)
    ensures IsUrlText(s) ==> IsStdText(r)
  {
    Replace(Replace(s, '-', '+'), '_', '/')
  }

  // ---- the two codecs ----

  function ServerText(binary: seq<byte>): string {
    Remove(Replace(Replace(Btoa(binary), '+', '-'), '/', '_'), '=')
  }

  function ClientText(binary: seq<byte>): string {
    StripTrailing(Replace(Replace(Btoa(binary), '+', '-'), '/', '_'), '=')
  }

  function ServerDecode(s: string): Option<seq<byte>> {
    Atob(ToStd(s) + "==="[(|s| + 3) % 4..])
  }

  function ClientDecode(s: string): Option<seq<byte>> {
    if !IsUrlText(s) then None else Atob(ToStd(s))
  }

  /** base64urlEncode: accumulates the binary string, then one call of btoa. */
  method ServerEncode(bytes: seq<byte>) returns (text: string)
    ensures text == Encode(bytes)
  {
    var binary: seq<byte> := [];
    for i := 0 to |bytes|
      invariant binary == bytes[..i]
    {
      binary := binary + [bytes[i]];
    }
    assert binary == bytes;
    ServerTextIsEncode(bytes);
    text := Remove(Replace(Replace(Btoa(binary), '+', '-'), '/', '_'), '=');
  }

  /** bytesToBase64url. */
  method ClientEncode(bytes: seq<byte>) returns (text: string)
    ensures text == Encode(bytes)
  {
    var binary: seq<byte> := [];
    for i := 0 to |bytes|
      invariant binary == bytes[..i]
    {
      binary := binary + [bytes[i]];
    }
    assert binary == bytes;
    ClientTextIsEncode(bytes);
    text := StripTrailing(Replace(Replace(Btoa(binary), '+', '-'), '/', '_'), '=');
  }

  // ---- both encoders are RFC 4648 ----

  lemma UrlOfStd(s: seq<sextet>, n: nat)
    ensures Replace(Replace(StdText(s) + Equals(n), '+', '-'), '/', '_') == UrlText(s) + Equals(n)
  {
  }

  lemma {:induction false} RemoveEquals(text: string, n: nat)
    requires IsUrlText(text)
    ensures Remove(text + Equals(n), '=') == text
  {
    if text != "" {
      assert (text + Equals(n))[1..] == text[1..] + Equals(n);
      RemoveEquals(text[1..], n);
    } else if n > 0 {
      assert Equals(n)[1..] == Equals(n - 1);
      assert text + Equals(n) == Equals(n);
      RemoveEquals(text, n - 1);
      assert text + Equals(n - 1) == Equals(n - 1);
    }
  }

  lemma {:induction false} StripEquals(text: string, n: nat)
    requires IsUrlText(text)
    ensures StripTrailing(text + Equals(n), '=') == text
  {
    if n > 0 {
      assert (text + Equals(n))[..|text| + n - 1] == text + Equals(n - 1);
      StripEquals(text, n - 1);
    } else {
      assert text + Equals(0) == text;
    }
  }

  lemma ServerTextIsEncode(bytes: seq<byte>)
    ensures ServerText(bytes) == Encode(bytes)
  {
    UrlOfStd(Sextets(bytes), (3 - |bytes| % 3) % 3);
    RemoveEquals(Encode(bytes), (3 - |bytes| % 3) % 3);
  }

  lemma ClientTextIsEncode(bytes: seq<byte>)
    ensures ClientText(bytes) == Encode(bytes)
  {
    UrlOfStd(Sextets(bytes), (3 - |bytes| % 3) % 3);
    StripEquals(Encode(bytes), (3 - |bytes| % 3) % 3);
  }

  // ---- both decoders are RFC 4648 ----

  lemma {:induction false} NoSpaces(s: string)
    requires forall i :: 0 <= i < |s| ==> !IsSpace(s[i])
    ensures StripSpaces(s) == s
  {
    if s != "" {
      NoSpaces(s[1..]);
    }
  }

  lemma ClientDecodeIsDecode(s: string)
    ensures ClientDecode(s) == Decode(s)
  {
    if IsUrlText(s) {
      NoSpaces(ToStd(s));
      assert StripPadding(ToStd(s)) == ToStd(s);
    }
  }

  /** The server pads before decoding and so accepts more texts (padded or in
      the standard alphabet), but on base64url text it decodes the same. */
  lemma ServerDecodeIsDecode(s: string)
    requires IsUrlText(s)
    ensures ServerDecode(s) == Decode(s)
  {
    PadText(|s|);
    AtobPadded(ToStd(s));
  }

  function PadLength(n: nat): nat {
    if n % 4 == 0 then 0 else 4 - n % 4
  }

  lemma PadText(n: nat)
    ensures "==="[(n + 3) % 4..] == Equals(PadLength(n))
  {
  }

  lemma AtobPadded(std: string)
    requires IsStdText(std)
    ensures Atob(std + Equals(PadLength(|std|))) ==
            if |std| % 4 == 1 then None else Some(Bytes(StdValues(std)))
  {
    var padded := std + Equals(PadLength(|std|));
    NoSpaces(padded);
    PaddingStripped(std, PadLength(|std|));
    if |std| % 4 == 1 {
      assert !IsStdChar(StripPadding(padded)[|std|]);
    }
  }

  lemma PaddingStripped(std: string, n: nat)
    requires IsStdText(std) && n == PadLength(|std|)
    ensures var t := StripPadding(std + Equals(n));
            if n == 3 then |t| == |std| + 1 && t[|std|] == '=' else t == std
  {
    var padded := std + Equals(n);
    if n == 0 {
      assert padded == std;
    } else if n == 1 {
      assert padded[..|padded| - 1] == std;
    } else if n == 2 {
      assert padded[..|padded| - 2] == std;
    }
  }

  /** The alphabets of sections 4 and 5 of RFC 4648 together. */
  predicate IsEitherChar(c: char) {
    IsUrlChar(c) || c == '+' || c == '/'
  }

  /** Letters of either alphabet, then `signs` equals signs. */
  predicate LettersThenSigns(t: string, signs: nat) {
    && signs <= |t|
    && (forall i :: 0 <= i < |t| - signs ==> IsEitherChar(t[i]))
    && (forall i :: |t| - signs <= i < |t| ==> t[i] == '=')
  }

  predicate SignsFit(letters: nat, signs: nat) {
    if (letters + signs) % 4 == 0 then signs <= 2 else signs == 0 && letters % 4 != 1
  }

  /** The texts the server decodes. White space apart, which the padding it adds
      counts as text, they are letters of either alphabet followed by `=` signs;
      those and the added ones are at most two and complete a group of four, or
      there are none at all and the last group is not a single letter. */
  predicate ServerReads(s: string) {
    var t := StripSpaces(s);
    exists signs :: 0 <= signs <= |t| && LettersThenSigns(t, signs) && SignsFit(|t| - signs, signs + PadLength(|s|))
  }

  lemma ToStdHead(s: string, tail: string)
    requires s != ""
    ensures (ToStd(s) + tail)[1..] == ToStd(s[1..]) + tail
    ensures IsSpace(ToStd(s)[0]) <==> IsSpace(s[0])
  {
  }

  lemma ToStdCons(c: char, s: string, rest: string)
    requires s != "" && s[0] == c
    ensures ToStd([c] + rest) == [ToStd(s)[0]] + ToStd(rest)
  {
  }

  lemma {:induction false} SpacesOfPadded(s: string, n: nat)
    ensures StripSpaces(ToStd(s) + Equals(n)) == ToStd(StripSpaces(s)) + Equals(n)
  {
    if s == "" {
      NoSpaces(Equals(n));
      assert ToStd("") + Equals(n) == Equals(n);
    } else {
      SpacesOfPadded(s[1..], n);
      ToStdHead(s, Equals(n));
      ToStdCons(s[0], s, StripSpaces(s[1..]));
      assert (ToStd(s) + Equals(n))[0] == ToStd(s)[0];
    }
  }

  /** atob takes the text, white space gone. */
  predicate Decodable(u: string) {
    var t := StripPadding(u);
    |t| % 4 != 1 && IsStdText(t)
  }

  lemma SignIsNoLetter(c: char)
    ensures IsStdChar(c) ==> c != '='
  {
  }

  predicate StdThenSigns(u: string, signs: nat) {
    && signs <= |u|
    && (forall i :: 0 <= i < |u| - signs ==> IsStdChar(u[i]))
    && (forall i :: |u| - signs <= i < |u| ==> u[i] == '=')
  }

  lemma DecodableHasSigns(u: string) returns (signs: nat)
    requires Decodable(u)
    ensures StdThenSigns(u, signs) && SignsFit(|u| - signs, signs)
  {
    signs := |u| - |StripPadding(u)|;
    assert forall i :: 0 <= i < |u| - signs ==> StripPadding(u)[i] == u[i];
  }

  lemma SignsAreDecodable(u: string, signs: nat)
    requires StdThenSigns(u, signs) && SignsFit(|u| - signs, signs)
    ensures Decodable(u)
  {
    if signs > 0 {
      assert u[|u| - 1] == '=';
    }
    if |u| > signs {
      SignIsNoLetter(u[|u| - signs - 1]);
    }
    var t := StripPadding(u);
    assert |t| == |u| - signs;
    assert forall i :: 0 <= i < |t| ==> t[i] == u[i];
  }

  /** Only letters decode, so the signs the server adds are among the last ones. */
  lemma AddedAreSigns(t: string, p: nat, signs: nat)
    requires StdThenSigns(ToStd(t) + Equals(p), signs)
    ensures p <= signs && LettersThenSigns(t, signs - p)
  {
    var u := ToStd(t) + Equals(p);
    if signs < p {
      assert u[|t|] == '=';
      SignIsNoLetter(u[|t|]);
    }
    forall i | 0 <= i < |t| - (signs - p) ensures IsEitherChar(t[i]) {
      assert u[i] == ToStd(t)[i];
    }
    forall i | |t| - (signs - p) <= i < |t| ensures t[i] == '=' {
      assert u[i] == ToStd(t)[i];
    }
  }

  lemma SignsAreAdded(t: string, p: nat, signs: nat)
    requires LettersThenSigns(t, signs)
    ensures StdThenSigns(ToStd(t) + Equals(p), signs + p)
  {
  }

  lemma ServerDecodesPadded(s: string)
    ensures ServerDecode(s).Some? <==> Decodable(ToStd(StripSpaces(s)) + Equals(PadLength(|s|)))
  {
    PadText(|s|);
    SpacesOfPadded(s, PadLength(|s|));
  }

  lemma ServerDecodesExactly(s: string)
    ensures ServerDecode(s).Some? <==> ServerReads(s)
  {
    var t, p := StripSpaces(s), PadLength(|s|);
    var u := ToStd(t) + Equals(p);
    ServerDecodesPadded(s);
    if Decodable(u) {
      var signs := DecodableHasSigns(u);
      AddedAreSigns(t, p, signs);
    }
    if signs :| 0 <= signs <= |t| && LettersThenSigns(t, signs) && SignsFit(|t| - signs, signs + p) {
      SignsAreAdded(t, p, signs);
      SignsAreDecodable(u, signs + p);
    }
  }

  /** The decoders agree on a text if and only if it is base64url text or not
      among those the server decodes: the server also takes padded text, the
      standard alphabet and white space. */
  lemma DecodersAgree(s: string)
    ensures ServerDecode(s) == ClientDecode(s) <==> IsUrlText(s) || !ServerReads(s)
  {
    ClientDecodeIsDecode(s);
    ServerDecodesExactly(s);
    if IsUrlText(s) {
      ServerDecodeIsDecode(s);
    }
  }

  /** One text of each kind that only the server decodes. */
  lemma DecodersDiffer(s: string)
    requires s == "QQ==" || s == "+/+/" || s == "QQ  "
    ensures !IsUrlText(s) && ServerDecode(s).Some? && ClientDecode(s).None?
  {
    if s == "QQ==" { PaddedIsRead(s); } else if s == "+/+/" { StandardIsRead(s); } else { SpacedIsRead(s); }
    ServerDecodesExactly(s);
  }

  lemma PaddedIsRead(s: string)
    requires s == "QQ=="
    ensures ServerReads(s) && !IsUrlText(s)
  {
    NoSpaces(s);
    assert s[3] == '=';
    assert LettersThenSigns(s, 2);
  }

  lemma StandardIsRead(s: string)
    requires s == "+/+/"
    ensures ServerReads(s) && !IsUrlText(s)
  {
    NoSpaces(s);
    assert s[0] == '+';
    assert LettersThenSigns(s, 0);
  }

  lemma SpacedIsRead(s: string)
    requires s == "QQ  "
    ensures ServerReads(s) && !IsUrlText(s)
  {
    assert s[3] == ' ' && s[1..] == "Q  " && "Q  "[1..] == "  " && "  "[1..] == " " && " "[1..] == "";
    assert StripSpaces(" ") == "";
    assert StripSpaces("  ") == "";
    assert StripSpaces("Q  ") == "Q";
    assert StripSpaces(s) == "QQ";
    assert LettersThenSigns("QQ", 0);
  }

  // ---- round trip ----

  lemma {:induction false} BytesOfSextets(bytes: seq<byte>)
    ensures Bytes(Sextets(bytes)) == bytes
    ensures |Sextets(bytes)| % 4 != 1
  {
    if |bytes| >= 3 {
      BytesOfSextets(bytes[3..]);
      var s := Sextets(bytes);
      assert s[4..] == Sextets(bytes[3..]);
      assert bytes == [bytes[0], bytes[1], bytes[2]] + bytes[3..];
    }
  }

  lemma StdOfUrl(s: seq<sextet>)
    ensures StdValues(ToStd(UrlText(s))) == s
  {
    var u := UrlText(s);
    forall i | 0 <= i < |s|
      ensures StdValue(ToStd(u)[i]) == s[i]
    {
      assert ToStd(u)[i] == StdChar(s[i]);
    }
  }

  /** Decoding what was encoded gives it back, with either codec on either side. */
  lemma RoundTrip(bytes: seq<byte>)
    ensures IsUrlText(Encode(bytes))
    ensures ServerDecode(Encode(bytes)) == Some(bytes)
    ensures ClientDecode(Encode(bytes)) == Some(bytes)
  {
    BytesOfSextets(bytes);
    StdOfUrl(Sextets(bytes));
    ServerDecodeIsDecode(Encode(bytes));
    ClientDecodeIsDecode(Encode(bytes));
  }

  /** Encoding is one-to-one. */
  lemma EncodeInjective(a: seq<byte>, b: seq<byte>)
    requires Encode(a) == Encode(b)
    ensures a == b
  {
    RoundTrip(a);
    RoundTrip(b);
  }
}
