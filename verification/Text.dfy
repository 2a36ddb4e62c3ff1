/** The text layer under payloads and tokens: UTF-8 (RFC 3629) and the JSON of
    flat records (RFC 8259). Strings are sequences of Unicode scalar values, and
    numbers are integers. */
module Text {
  import opened Wrappers
  import opened Base64url

  // ---- UTF-8 ----

  function EncodeChar(c: char): (r: seq<byte>) {
    var n := c as int;
    if n < 0x80 then [n]
    else if n < 0x800 then [0xC0 + n / 0x40, 0x80 + n % 0x40]
    else if n < 0x10000 then [0xE0 + n / 0x1000, 0x80 + n / 0x40 % 0x40, 0x80 + n % 0x40]
    else [0xF0 + n / 0x40000, 0x80 + n / 0x1000 % 0x40, 0x80 + n / 0x40 % 0x40, 0x80 + n % 0x40]
  }

  function Utf8(s: string): seq<byte> {
    if s == "" then [] else EncodeChar(s[0]) + Utf8(s[1..])
  }

  predicate IsTail(b: byte) { 0x80 <= b < 0xC0 }

  predicate IsScalar(n: int) { 0 <= n < 0xD800 || 0xE000 <= n < 0x110000 }

  /** Length of the sequence a leading byte announces; 0 when it cannot lead. */
  function LeadLength(b: byte): nat {
    if b < 0x80 then 1 else if 0xC0 <= b < 0xE0 then 2 else if 0xE0 <= b < 0xF0 then 3
    else if 0xF0 <= b < 0xF8 then 4 else 0
  }

  function CodePoint(b: seq<byte>): int
    requires 1 <= |b| <= 4
  {
    var b0: int := b[0];
    if |b| == 1 then b0
    else
      var b1: int := b[1];
      if |b| == 2 then (b0 - 0xC0) * 0x40 + (b1 - 0x80)
      else
        var b2: int := b[2];
        if |b| == 3 then (b0 - 0xE0) * 0x1000 + (b1 - 0x80) * 0x40 + (b2 - 0x80)
        else
          var b3: int := b[3];
          (b0 - 0xF0) * 0x40000 + (b1 - 0x80) * 0x1000 + (b2 - 0x80) * 0x40 + (b3 - 0x80)
  }

  /** Decodes well-formed UTF-8; None otherwise. */
  function FromUtf8(bytes: seq<byte>): Option<string> {
    if bytes == [] then Some("")
    else
      var n := LeadLength(bytes[0]);
      if n == 0 || |bytes| < n || (exists i :: 1 <= i < n && !IsTail(bytes[i])) then None
      else
        var p := CodePoint(bytes[..n]);
        if !IsScalar(p) || EncodeChar(p as char) != bytes[..n] then None
        else
          var rest := FromUtf8(bytes[n..]);
          if rest.None? then None else Some([p as char] + rest.value)
  }

  lemma CharRoundTrip(c: char)
    ensures var b := EncodeChar(c);
            && LeadLength(b[0]) == |b|
            && (forall i :: 1 <= i < |b| ==> IsTail(b[i]))
            && CodePoint(b) == c as int && IsScalar(c as int)
  {
    Base64(c as int);
  }

  /** A number below 2^24 from its base-64 digits. */
  lemma Base64(n: nat)
    ensures n == n / 0x40 * 0x40 + n % 0x40
    ensures n == n / 0x1000 * 0x1000 + n / 0x40 % 0x40 * 0x40 + n % 0x40
    ensures n == n / 0x40000 * 0x40000 + n / 0x1000 % 0x40 * 0x1000 + n / 0x40 % 0x40 * 0x40 + n % 0x40
  {
    assert n / 0x1000 == n / 0x40 / 0x40 && n / 0x40000 == n / 0x1000 / 0x40;
  }

  lemma {:induction false} Utf8RoundTrip(s: string)
    ensures FromUtf8(Utf8(s)) == Some(s)
  {
    if s != "" {
      var b := EncodeChar(s[0]);
      var bytes := Utf8(s);
      CharRoundTrip(s[0]);
      Utf8RoundTrip(s[1..]);
      assert bytes[..|b|] == b && bytes[|b|..] == Utf8(s[1..]);
      assert forall i :: 0 <= i < |b| ==> bytes[i] == b[i];
      assert s == [s[0]] + s[1..];
    }
  }

  /** Only U+0000 encodes to a zero byte. */
  lemma {:induction false} Utf8NoZero(s: string)
    requires forall i :: 0 <= i < |s| ==> s[i] != '\0'
    ensures 0 !in Utf8(s)
  {
    if s != "" {
      Utf8NoZero(s[1..]);
    }
  }

  // ---- JSON ----

  /** The values a field of a payload or token can have. */
  datatype Json = JString(s: string) | JNumber(n: int) | JBool(b: bool) | JNull

  type Record = seq<(string, Json)>

  const QUOTE := '\"'
  const BACKSLASH := '\\'

  function HexDigit(n: int): char
    requires 0 <= n < 16
  {
    if n < 10 then '0' + n as char else 'a' + (n - 10) as char
  }

  /** How JSON.stringify writes one character of a string. */
  function Escape(c: char): string {
    var n := c as int;
    if c == QUOTE then [BACKSLASH, QUOTE]
    else if c == BACKSLASH then [BACKSLASH, BACKSLASH]
    else if n == 8 then [BACKSLASH, 'b']
    else if n == 9 then [BACKSLASH, 't']
    else if n == 10 then [BACKSLASH, 'n']
    else if n == 12 then [BACKSLASH, 'f']
    else if n == 13 then [BACKSLASH, 'r']
    else if n < 32 then [BACKSLASH, 'u', '0', '0', HexDigit(n / 16), HexDigit(n % 16)]
    else [c]
  }

  function EscapeAll(s: string): string {
    if s == "" then "" else Escape(s[0]) + EscapeAll(s[1..])
  }

  function Digit(n: int): char
    requires 0 <= n < 10
  {
    '0' + n as char
  }

  function NatText(n: nat): string {
    if n < 10 then [Digit(n)] else NatText(n / 10) + [Digit(n % 10)]
  }

  function NumberText(n: int): string {
    if n < 0 then ['-'] + NatText(-n) else NatText(n)
  }

  function ValueText(v: Json): string {
    match v
    case JString(s) => [QUOTE] + EscapeAll(s) + [QUOTE]
    case JNumber(n) => NumberText(n)
    case JBool(b) => if b then "true" else "false"
    case JNull => "null"
  }

  function FieldText(f: (string, Json)): string {
    [QUOTE] + EscapeAll(f.0) + [QUOTE, ':'] + ValueText(f.1)
  }

  /** The fields after the first, each after a comma. */
  function MoreText(r: Record): string {
    if r == [] then "" else "," + FieldText(r[0]) + MoreText(r[1..])
  }

  /** JSON.stringify of a flat record. */
  function Stringify(r: Record): string {
    if r == [] then "{}" else "{" + FieldText(r[0]) + MoreText(r[1..]) + "}"
  }

  // ---- JSON.parse on what Stringify can produce ----

  datatype Parsed<+T> = NoParse | Parsed(value: T, rest: string)

  function HexValue(c: char): Option<int> {
    if '0' <= c <= '9' then Some(c as int - '0' as int)
    else if 'a' <= c <= 'f' then Some(c as int - 'a' as int + 10)
    else if 'A' <= c <= 'F' then Some(c as int - 'A' as int + 10)
    else None
  }

  /** Four hexadecimal digits naming a scalar value. */
  function ParseHex(s: string): Option<char> {
    if |s| < 4 || (exists i :: 0 <= i < 4 && HexValue(s[i]).None?) then None
    else
      var n := ((HexValue(s[0]).value * 16 + HexValue(s[1]).value) * 16 + HexValue(s[2]).value) * 16 + HexValue(s[3]).value;
      if IsScalar(n) then Some(n as char) else None
  }

  function Unescape(c: char): Option<char> {
    if c == QUOTE || c == BACKSLASH || c == '/' then Some(c)
    else if c == 'b' then Some(8 as char)
    else if c == 't' then Some(9 as char)
    else if c == 'n' then Some(10 as char)
    else if c == 'f' then Some(12 as char)
    else if c == 'r' then Some(13 as char)
    else None
  }

  /** One character of a string body, and what follows it. */
  function ParseChar(s: string): (r: Parsed<char>)
    ensures r.Parsed? ==> |r.rest| < |s|
  {
    if s == "" || s[0] < ' ' || s[0] == QUOTE then NoParse
    else if s[0] != BACKSLASH then Parsed(s[0], s[1..])
    else if |s| == 1 then NoParse
    else if s[1] == 'u' then
      var c := ParseHex(s[2..]);
      if c.None? then NoParse else Parsed(c.value, s[6..])
    else
      var c := Unescape(s[1]);
      if c.None? then NoParse else Parsed(c.value, s[2..])
  }

  /** The rest of a string after its opening quote. */
  function ParseString(s: string): (r: Parsed<string>)
    ensures r.Parsed? ==> |r.rest| < |s|
    decreases |s|
  {
    if s != "" && s[0] == QUOTE then Parsed("", s[1..])
    else
      var c := ParseChar(s);
      if c.NoParse? then NoParse
      else
        var more := ParseString(c.rest);
        if more.NoParse? then NoParse else Parsed([c.value] + more.value, more.rest)
  }

  predicate IsDigit(c: char) { '0' <= c <= '9' }

  function DigitValue(c: char): int
    requires IsDigit(c)
  {
    c as int - '0' as int
  }

  /** As many digits as there are. */
  function DigitRun(s: string): (r: nat)
    ensures r <= |s| && (r < |s| ==> !IsDigit(s[r]))
    ensures forall i :: 0 <= i < r ==> IsDigit(s[i])
  {
    if s != "" && IsDigit(s[0]) then 1 + DigitRun(s[1..]) else 0
  }

  function NatOf(digits: string): nat
    requires forall i :: 0 <= i < |digits| ==> IsDigit(digits[i])
  {
    if digits == "" then 0
    else NatOf(digits[..|digits| - 1]) * 10 + DigitValue(digits[|digits| - 1])
  }

  /** An integer: no leading zeros, no fraction, no exponent. */
  function ParseNat(s: string): (r: Parsed<nat>)
    ensures r.Parsed? ==> |r.rest| < |s|
  {
    var n := DigitRun(s);
    if n == 0 || (n > 1 && s[0] == '0') then NoParse else Parsed(NatOf(s[..n]), s[n..])
  }

  function ParseValue(s: string): (r: Parsed<Json>)
    ensures r.Parsed? ==> |r.rest| < |s|
  {
    if s == "" then NoParse
    else if s[0] == QUOTE then
      var r := ParseString(s[1..]);
      if r.NoParse? then NoParse else Parsed(JString(r.value), r.rest)
    else if s[0] == '-' then
      var r := ParseNat(s[1..]);
      if r.NoParse? then NoParse else Parsed(JNumber(0 - r.value as int), r.rest)
    else if IsDigit(s[0]) then
      var r := ParseNat(s);
      if r.NoParse? then NoParse else Parsed(JNumber(r.value), r.rest)
    else if "true" <= s then Parsed(JBool(true), s[4..])
    else if "false" <= s then Parsed(JBool(false), s[5..])
    else if "null" <= s then Parsed(JNull, s[4..])
    else NoParse
  }

  function ParseField(s: string): (r: Parsed<(string, Json)>)
    ensures r.Parsed? ==> |r.rest| < |s|
  {
    if s == "" || s[0] != QUOTE then NoParse
    else
      var name := ParseString(s[1..]);
      if name.NoParse? || name.rest == "" || name.rest[0] != ':' then NoParse
      else
        var v := ParseValue(name.rest[1..]);
        if v.NoParse? then NoParse else Parsed((name.value, v.value), v.rest)
  }

  /** Fields up to the closing brace. */
  function ParseMore(s: string): Option<Record>
    decreases |s|
  {
    if s == "}" then Some([])
    else if s == "" || s[0] != ',' then None
    else
      var f := ParseField(s[1..]);
      if f.NoParse? then None
      else
        var more := ParseMore(f.rest);
        if more.None? then None else Some([f.value] + more.value)
  }

  /** JSON.parse of a flat record without insignificant white space. */
  function Parse(s: string): Option<Record> {
    if s == "{}" then Some([])
    else if s == "" || s[0] != '{' then None
    else ParseMore("," + s[1..])
  }

  // ---- round trip ----

  lemma Assoc(a: string, b: string, c: string)
    ensures (a + b) + c == a + (b + c)
  {
  }

  lemma HeadTail(c: char, t: string)
    ensures ([c] + t)[0] == c && ([c] + t)[1..] == t && |[c] + t| == |t| + 1
  {
  }

  lemma ParseEscape(c: char, rest: string)
    ensures ParseChar(Escape(c) + rest) == Parsed(c, rest)
    ensures Escape(c) != "" && Escape(c)[0] != QUOTE
  {
    var e := Escape(c);
    var s := e + rest;
    assert s[|e|..] == rest;
    if |e| == 6 {
      var n := c as int;
      assert s[2..][..4] == ['0', '0', HexDigit(n / 16), HexDigit(n % 16)];
      assert s[2..][0] == '0' && s[2..][1] == '0' && s[2..][2] == HexDigit(n / 16) && s[2..][3] == HexDigit(n % 16);
      assert HexValue(HexDigit(n / 16)) == Some(n / 16) && HexValue(HexDigit(n % 16)) == Some(n % 16);
    }
  }

  lemma {:induction false} ParseEscapeAll(t: string, rest: string)
    ensures ParseString(EscapeAll(t) + [QUOTE] + rest) == Parsed(t, rest)
  {
    if t == "" {
      assert EscapeAll(t) + [QUOTE] + rest == [QUOTE] + rest;
      assert ([QUOTE] + rest)[1..] == rest;
    } else {
      var more := EscapeAll(t[1..]) + [QUOTE] + rest;
      ParseEscapeAll(t[1..], rest);
      ParseEscape(t[0], more);
      assert EscapeAll(t) + [QUOTE] + rest == Escape(t[0]) + more;
      assert t == [t[0]] + t[1..];
    }
  }

  lemma {:induction false} NatTextDigits(n: nat)
    ensures var t := NatText(n);
            && t != "" && (forall i :: 0 <= i < |t| ==> IsDigit(t[i])) && NatOf(t) == n
            && (|t| > 1 ==> t[0] != '0')
  {
    if n >= 10 {
      NatTextDigits(n / 10);
      var t := NatText(n);
      assert t[..|t| - 1] == NatText(n / 10);
      assert n / 10 < 10 ==> NatText(n / 10) == [Digit(n / 10)];
    } else {
      assert NatText(n)[..0] == "";
    }
  }

  lemma {:induction false} DigitRunIs(t: string, rest: string)
    requires forall i :: 0 <= i < |t| ==> IsDigit(t[i])
    requires rest == "" || !IsDigit(rest[0])
    ensures DigitRun(t + rest) == |t|
  {
    if t != "" {
      assert (t + rest)[1..] == t[1..] + rest;
      DigitRunIs(t[1..], rest);
    } else {
      assert t + rest == rest;
    }
  }

  lemma ParseNatText(n: nat, rest: string)
    requires rest == "" || !IsDigit(rest[0])
    ensures ParseNat(NatText(n) + rest) == Parsed(n, rest)
    ensures NatText(n) != "" && IsDigit(NatText(n)[0])
  {
    var t := NatText(n);
    NatTextDigits(n);
    DigitRunIs(t, rest);
    assert (t + rest)[..|t|] == t && (t + rest)[|t|..] == rest;
  }

  /** What may follow a value: a comma or a closing brace. */
  predicate Ends(rest: string) {
    rest != "" && (rest[0] == ',' || rest[0] == '}')
  }

  lemma ParseStringValue(t: string, rest: string)
    ensures ParseValue(ValueText(JString(t)) + rest) == Parsed(JString(t), rest)
  {
    ParseEscapeAll(t, rest);
    StringValueShape(t, rest);
    HeadTail(QUOTE, EscapeAll(t) + [QUOTE] + rest);
  }

  lemma StringValueShape(t: string, rest: string)
    ensures ValueText(JString(t)) + rest == [QUOTE] + (EscapeAll(t) + [QUOTE] + rest)
  {
  }

  lemma ParseNumberValue(n: int, rest: string)
    requires Ends(rest)
    ensures ParseValue(NumberText(n) + rest) == Parsed(JNumber(n), rest)
  {
    if n < 0 {
      ParseNegativeText(-n, rest);
    } else {
      ParseNatText(n, rest);
      ParsePositive(NatText(n) + rest, n, rest);
    }
  }

  lemma ParseNegativeText(n: nat, rest: string)
    requires Ends(rest)
    ensures ParseValue(['-'] + NatText(n) + rest) == Parsed(JNumber(0 - n as int), rest)
  {
    ParseNatText(n, rest);
    Assoc(['-'], NatText(n), rest);
    ParseNegative(NatText(n) + rest, n, rest);
  }

  lemma ParseNegative(s: string, n: nat, rest: string)
    requires ParseNat(s) == Parsed(n, rest)
    ensures ParseValue(['-'] + s) == Parsed(JNumber(0 - n as int), rest)
  {
    HeadTail('-', s);
  }

  lemma ParsePositive(s: string, n: nat, rest: string)
    requires s != "" && IsDigit(s[0]) && ParseNat(s) == Parsed(n, rest)
    ensures ParseValue(s) == Parsed(JNumber(n), rest)
  {
  }

  lemma ParseWord(word: string, rest: string)
    requires word in {"true", "false", "null"}
    ensures ParseValue(word + rest) ==
            Parsed(if word == "true" then JBool(true) else if word == "false" then JBool(false) else JNull, rest)
  {
    var s := word + rest;
    assert s[|word|..] == rest;
    assert s[0] == word[0];
  }

  lemma ParseValueText(v: Json, rest: string)
    requires Ends(rest)
    ensures ParseValue(ValueText(v) + rest) == Parsed(v, rest)
  {
    match v {
      case JString(t) => ParseStringValue(t, rest);
      case JNumber(n) => ParseNumberValue(n, rest);
      case JBool(b) => ParseWord(if b then "true" else "false", rest);
      case JNull => ParseWord("null", rest);
    }
  }

  /** One unfolding of ParseField. */
  lemma FieldStep(s: string, name: string, v: Json, colon: string, rest: string)
    requires s != "" && s[0] == QUOTE && ParseString(s[1..]) == Parsed(name, colon)
    requires colon != "" && colon[0] == ':' && ParseValue(colon[1..]) == Parsed(v, rest)
    ensures ParseField(s) == Parsed((name, v), rest)
  {
  }

  lemma ParseFieldText(f: (string, Json), rest: string)
    requires Ends(rest)
    ensures ParseField(FieldText(f) + rest) == Parsed(f, rest)
  {
    var s := FieldText(f) + rest;
    var colon := [':'] + ValueText(f.1) + rest;
    ParseEscapeAll(f.0, colon);
    ParseValueText(f.1, rest);
    FieldTextShape(f, rest);
    FieldStep(s, f.0, f.1, colon, rest);
  }

  lemma FieldTextShape(f: (string, Json), rest: string)
    ensures var s := FieldText(f) + rest;
            var colon := [':'] + ValueText(f.1) + rest;
            && s != "" && s[0] == QUOTE && s[1..] == EscapeAll(f.0) + [QUOTE] + colon
            && colon[1..] == ValueText(f.1) + rest
  {
    FieldTextParts(EscapeAll(f.0), ValueText(f.1), rest);
  }

  lemma FieldTextParts(name: string, value: string, rest: string)
    ensures var s := [QUOTE] + name + [QUOTE, ':'] + value + rest;
            var colon := [':'] + value + rest;
            s[0] == QUOTE && s[1..] == name + [QUOTE] + colon && colon[1..] == value + rest
  {
  }

  /** One unfolding of ParseMore. */
  lemma MoreStep(s: string, f: (string, Json), rest: string, more: Record)
    requires s != "" && s[0] == ',' && ParseField(s[1..]) == Parsed(f, rest) && ParseMore(rest) == Some(more)
    ensures ParseMore(s) == Some([f] + more)
  {
  }

  lemma {:induction false} ParseMoreText(r: Record)
    ensures ParseMore(MoreText(r) + "}") == Some(r)
    ensures Ends(MoreText(r) + "}")
  {
    if r == [] {
      assert MoreText(r) + "}" == "}";
    } else {
      var after := MoreText(r[1..]) + "}";
      ParseMoreText(r[1..]);
      ParseFieldText(r[0], after);
      MoreTextShape(r);
      MoreStep(MoreText(r) + "}", r[0], after, r[1..]);
      SplitHead(r);
    }
  }

  lemma SplitHead(r: Record)
    requires r != []
    ensures [r[0]] + r[1..] == r
  {
  }

  lemma MoreTextShape(r: Record)
    requires r != []
    ensures var rest := FieldText(r[0]) + (MoreText(r[1..]) + "}");
            var s := [','] + rest;
            MoreText(r) + "}" == s && s[0] == ',' && s[1..] == rest
  {
    Assoc("," + FieldText(r[0]), MoreText(r[1..]), "}");
    Assoc(",", FieldText(r[0]), MoreText(r[1..]) + "}");
    HeadTail(',', FieldText(r[0]) + (MoreText(r[1..]) + "}"));
  }

  /** Parsing what was stringified gives it back. */
  lemma JsonRoundTrip(r: Record)
    ensures Parse(Stringify(r)) == Some(r)
  {
    if r != [] {
      ParseMoreText(r);
      MoreTextShape(r);
      StringifyShape(r);
      ParseStep(FieldText(r[0]) + (MoreText(r[1..]) + "}"), r);
    }
  }

  lemma ParseStep(rest: string, r: Record)
    requires |rest| > 1 && ParseMore([','] + rest) == Some(r)
    ensures Parse(['{'] + rest) == Some(r)
  {
    HeadTail('{', rest);
  }

  lemma StringifyShape(r: Record)
    requires r != []
    ensures var rest := FieldText(r[0]) + (MoreText(r[1..]) + "}");
            Stringify(r) == ['{'] + rest && |rest| > 1
  {
    Assoc("{" + FieldText(r[0]), MoreText(r[1..]), "}");
    Assoc("{", FieldText(r[0]), MoreText(r[1..]) + "}");
  }

  // ---- JSON text never holds a control character ----

  predicate Printable(s: string) {
    forall i :: 0 <= i < |s| ==> s[i] >= ' '
  }

  lemma {:induction false} EscapePrintable(s: string)
    ensures Printable(EscapeAll(s))
  {
    if s != "" {
      EscapePrintable(s[1..]);
    }
  }

  lemma FieldPrintable(f: (string, Json))
    ensures Printable(FieldText(f))
  {
    EscapePrintable(f.0);
    match f.1 {
      case JString(t) => EscapePrintable(t);
      case JNumber(n) => NatTextDigits(if n < 0 then -n else n);
      case _ =>
    }
  }

  lemma {:induction false} MorePrintable(r: Record)
    ensures Printable(MoreText(r))
  {
    if r != [] {
      FieldPrintable(r[0]);
      MorePrintable(r[1..]);
    }
  }

  lemma StringifyPrintable(r: Record)
    ensures Printable(Stringify(r))
  {
    if r != [] {
      FieldPrintable(r[0]);
      MorePrintable(r[1..]);
    }
  }

  lemma JsonNoZeroByte(r: Record)
    ensures Printable(Stringify(r)) && 0 !in Utf8(Stringify(r))
  {
    StringifyPrintable(r);
    Utf8NoZero(Stringify(r));
  }

  // ---- reading fields ----

  /** A property of a parsed object: the last field of that name. */
  function Lookup(r: Record, name: string): Option<Json> {
    if r == [] then None
    else if r[|r| - 1].0 == name then Some(r[|r| - 1].1)
    else Lookup(r[..|r| - 1], name)
  }

  /** In a record whose field names are distinct, every field is found. */
  lemma {:induction false} LookupAt(r: Record, i: nat)
    requires i < |r|
    requires forall j, k :: 0 <= j < k < |r| ==> r[j].0 != r[k].0
    ensures Lookup(r, r[i].0) == Some(r[i].1)
  {
    if i < |r| - 1 {
      LookupAt(r[..|r| - 1], i);
    }
  }

  predicate DistinctNames(r: Record) {
    forall j, k :: 0 <= j < k < |r| ==> r[j].0 != r[k].0
  }

  lemma LookupAll(r: Record)
    requires DistinctNames(r)
    ensures forall i :: 0 <= i < |r| ==> Lookup(r, r[i].0) == Some(r[i].1)
  {
    forall i | 0 <= i < |r|
      ensures Lookup(r, r[i].0) == Some(r[i].1)
    {
      LookupAt(r, i);
    }
  }
}
