/**
 * The canonical signing payload of the signer backend: the text that
 * `JSON.stringify` produces for the object
 * `{documentHash, sessionToken, timestamp, signer}`, with string escaping
 * as section 7 of RFC 8259 describes it and as JavaScript's `JSON.stringify`
 * applies it. A parser for exactly that shape is the left inverse of the
 * serializer, which makes the serializer injective: two different claim
 * tuples can never produce the same payload.
 */
module Json {
  import opened Wrappers

  /** The four values that are signed, in the key order of the payload.
      An absent `sessionToken` (JavaScript `undefined`) drops its key. */
  datatype Claims = Claims(
    documentHash: string,
    sessionToken: Option<string>,
    timestamp: string,
    signer: string)

  /** Lower-case hexadecimal digit for 0..15. */
  function HexDigit(n: nat): (c: char)
    requires n < 16
    ensures HexValue(c) == Some(n)
    ensures c as int >= 0x20
  {
    if n < 10 then (48 + n) as char else (87 + n) as char
  }

  /** Value of one hexadecimal digit, either case. */
  function HexValue(c: char): (r: Option<nat>)
    ensures r.Some? ==> r.value < 16
  {
    if '0' <= c <= '9' then Some(c as int - 48)
    else if 'a' <= c <= 'f' then Some(c as int - 87)
    else if 'A' <= c <= 'F' then Some(c as int - 55)
    else None
  }

  /** The escape of one character inside a JSON string literal:
      quotation mark and reverse solidus are escaped, the five control
      characters with a two-character escape use it, every other control
      character below U+0020 becomes `\u00XX`, anything else stays. */
  function EscapeChar(c: char): (e: string)
    ensures 0 < |e| && e[0] != '"'
    ensures e[0] == '\\' || (|e| == 1 && e[0] == c)
    ensures forall i :: 0 <= i < |e| ==> e[i] as int >= 0x20
  {
    var n := c as int;
    if c == '"' then ['\\', '"']
    else if c == '\\' then ['\\', '\\']
    else if n == 0x08 then ['\\', 'b']
    else if n == 0x0C then ['\\', 'f']
    else if c == '\n' then ['\\', 'n']
    else if c == '\r' then ['\\', 'r']
    else if c == '\t' then ['\\', 't']
    else if n < 0x20 then ['\\', 'u', '0', '0', HexDigit(n / 16), HexDigit(n % 16)]
    else [c]
  }

  /** The body of a JSON string literal for `s`, without the quotes. */
  function Escape(s: string): (e: string)
    ensures |e| >= |s|
  {
    if s == [] then [] else EscapeChar(s[0]) + Escape(s[1..])
  }

  /** An escaped body holds no control character, which a JSON string may
      not contain unescaped. */
  lemma {:induction false} EscapeHasNoControlChar(s: string)
    ensures forall i :: 0 <= i < |Escape(s)| ==> Escape(s)[i] as int >= 0x20
  {
    if s != [] {
      EscapeHasNoControlChar(s[1..]);
      var head, tail := EscapeChar(s[0]), Escape(s[1..]);
      assert Escape(s) == head + tail;
      forall i | 0 <= i < |Escape(s)| ensures Escape(s)[i] as int >= 0x20 {
        if i >= |head| { assert Escape(s)[i] == tail[i - |head|]; }
      }
    }
  }

  /** `s` as a JSON string literal: the escaped body between quotation
      marks. */
  function Quote(s: string): (q: string)
    ensures |q| >= 2 && q[0] == '"' && q[|q| - 1] == '"'
    ensures q[1..|q| - 1] == Escape(s)
  {
    "\"" + Escape(s) + "\""
  }

  /** The canonical payload text for the given claims: one JSON object,
      opening and closing with a brace.
      That it determines the claims is `ParsePayloadRoundTrip`. */
  function Payload(c: Claims): (p: string)
    ensures |p| >= 2 && p[0] == '{' && p[|p| - 1] == '}'
  {
    "{\"documentHash\":" + Quote(c.documentHash)
    + TokenPart(c.sessionToken)
    + TimestampAndSigner(c.timestamp, c.signer)
  }

  /** The session-token member, left out when the token is undefined. */
  function TokenPart(token: Option<string>): string
  {
    match token
    case Some(t) => ",\"sessionToken\":" + Quote(t)
    case None => ""
  }

  /** The timestamp and signer members and the closing brace. */
  function TimestampAndSigner(timestamp: string, signer: string): string
  {
    ",\"timestamp\":" + Quote(timestamp) + ",\"signer\":" + Quote(signer) + "}"
  }

  // ---------------------------------------------------------------------
  // Reading a payload back

  /** Decodes the escape sequence or the plain character at the head of `s`
      (which is inside a string literal and not at its closing quote);
      returns the character and how many characters it took. */
  function ReadChar(s: string): (r: Option<(char, nat)>)
    requires s != [] && s[0] != '"'
    ensures r.Some? ==> 0 < r.value.1 <= |s|
  {
    if s[0] == '\\' then
      if |s| < 2 then None
      else if s[1] == '"' then Some(('"', 2))
      else if s[1] == '\\' then Some(('\\', 2))
      else if s[1] == '/' then Some(('/', 2))
      else if s[1] == 'b' then Some((0x08 as char, 2))
      else if s[1] == 'f' then Some((0x0C as char, 2))
      else if s[1] == 'n' then Some(('\n', 2))
      else if s[1] == 'r' then Some(('\r', 2))
      else if s[1] == 't' then Some(('\t', 2))
      else if s[1] == 'u' && |s| >= 6 then
        match (HexValue(s[2]), HexValue(s[3]), HexValue(s[4]), HexValue(s[5]))
        case (Some(a), Some(b), Some(c), Some(d)) =>
          var v := ((a * 16 + b) * 16 + c) * 16 + d;
          if 0xD800 <= v < 0xE000 then None else Some((v as char, 6))
        case _ => None
      else None
    else if s[0] as int < 0x20 then None
    else Some((s[0], 1))
  }

  /** Reads the rest of a string literal whose opening quote is already
      consumed; returns the decoded text and what follows the closing quote. */
  function ReadString(s: string): (r: Option<(string, string)>)
    ensures r.Some? ==> |r.value.1| < |s|
    decreases |s|
  {
    if s == [] then None
    else if s[0] == '"' then Some(([], s[1..]))
    else match ReadChar(s)
      case None => None
      case Some((c, k)) =>
        match ReadString(s[k..])
        case None => None
        case Some((t, rest)) => Some(([c] + t, rest))
  }

  /** Consumes the literal text `lit` at the head of `s`. */
  function Expect(lit: string, s: string): (r: Option<string>)
    ensures r.Some? <==> lit <= s
    ensures r.Some? ==> s == lit + r.value
  {
    if lit <= s then Some(s[|lit|..]) else None
  }

  /** Reads a quoted string value: opening quote, body, closing quote. */
  function ReadQuoted(s: string): Option<(string, string)>
  {
    match Expect("\"", s)
    case None => None
    case Some(body) => ReadString(body)
  }

  /** Reads `,"sessionToken":"…"` when it is there. */
  function ReadSessionToken(s: string): Option<(Option<string>, string)>
  {
    match Expect(",\"sessionToken\":", s)
    case None => Some((None, s))
    case Some(r) =>
      match ReadQuoted(r)
      case None => None
      case Some((t, rest)) => Some((Some(t), rest))
  }

  /** Parses text of the payload's shape back into its claims. */
  function ParsePayload(s: string): Option<Claims>
  {
    match Expect("{\"documentHash\":", s)
    case None => None
    case Some(r) =>
      match ReadQuoted(r)
      case None => None
      case Some((hash, rest)) => ParseFromToken(hash, rest)
  }

  /** The payload after the document hash: the optional session token on. */
  function ParseFromToken(hash: string, s: string): Option<Claims>
  {
    match ReadSessionToken(s)
    case None => None
    case Some((token, rest)) => ParseFromTimestamp(hash, token, rest)
  }

  /** The payload from the timestamp member on. */
  function ParseFromTimestamp(hash: string, token: Option<string>, s: string): Option<Claims>
  {
    match Expect(",\"timestamp\":", s)
    case None => None
    case Some(r) =>
      match ReadQuoted(r)
      case None => None
      case Some((ts, rest)) => ParseFromSigner(hash, token, ts, rest)
  }

  /** The payload from the signer member to the closing brace. */
  function ParseFromSigner(hash: string, token: Option<string>, ts: string, s: string): Option<Claims>
  {
    match Expect(",\"signer\":", s)
    case None => None
    case Some(r) =>
      match ReadQuoted(r)
      case None => None
      case Some((signer, rest)) =>
        if rest == "}" then Some(Claims(hash, token, ts, signer)) else None
  }

  // ---------------------------------------------------------------------
  // Round trip

  /** Every escape decodes back to the character it escapes. */
  lemma ReadEscapedChar(c: char, rest: string)
    ensures EscapeChar(c) + rest != [] && (EscapeChar(c) + rest)[0] != '"'
    ensures ReadChar(EscapeChar(c) + rest) == Some((c, |EscapeChar(c)|))
  {
  }

  /** Reading an escaped body followed by the closing quote gives back the
      original text and exactly what follows the quote. */
  lemma {:induction false} ReadEscaped(s: string, rest: string)
    ensures ReadString(Escape(s) + "\"" + rest) == Some((s, rest))
  {
    if s == [] {
      assert Escape(s) + "\"" + rest == "\"" + rest;
    } else {
      var e := EscapeChar(s[0]);
      var tail := Escape(s[1..]) + "\"" + rest;
      assert Escape(s) + "\"" + rest == e + tail;
      ReadEscapedChar(s[0], tail);
      assert (e + tail)[|e|..] == tail;
      ReadEscaped(s[1..], rest);
      assert [s[0]] + s[1..] == s;
    }
  }

  /** A quoted value is read back exactly. */
  lemma ReadQuotedValue(v: string, rest: string)
    ensures ReadQuoted(Quote(v) + rest) == Some((v, rest))
  {
    assert Quote(v) + rest == "\"" + (Escape(v) + "\"" + rest);
    ReadEscaped(v, rest);
  }

  /** Consuming a literal from text that starts with it leaves the rest. */
  lemma ExpectLiteral(lit: string, rest: string)
    ensures Expect(lit, lit + rest) == Some(rest)
  {
  }

  /** The signer member and closing brace read back. */
  lemma ParseSignerMember(hash: string, token: Option<string>, ts: string, signer: string)
    ensures ParseFromSigner(hash, token, ts, ",\"signer\":" + Quote(signer) + "}")
         == Some(Claims(hash, token, ts, signer))
  {
    ExpectLiteral(",\"signer\":", Quote(signer) + "}");
    assert ",\"signer\":" + Quote(signer) + "}" == ",\"signer\":" + (Quote(signer) + "}");
    ReadQuotedValue(signer, "}");
  }

  /** The timestamp member and everything after it read back. */
  lemma ParseTimestampMember(hash: string, token: Option<string>, ts: string, signer: string)
    ensures ParseFromTimestamp(hash, token, TimestampAndSigner(ts, signer))
         == Some(Claims(hash, token, ts, signer))
  {
    var r := ",\"signer\":" + Quote(signer) + "}";
    assert TimestampAndSigner(ts, signer) == ",\"timestamp\":" + (Quote(ts) + r);
    ExpectLiteral(",\"timestamp\":", Quote(ts) + r);
    ReadQuotedValue(ts, r);
    ParseSignerMember(hash, token, ts, signer);
  }

  /** The optional session-token member and everything after it read back. */
  lemma ParseTokenMember(hash: string, c: Claims)
    ensures ParseFromToken(hash, TokenPart(c.sessionToken) + TimestampAndSigner(c.timestamp, c.signer))
         == Some(Claims(hash, c.sessionToken, c.timestamp, c.signer))
  {
    var tail := TimestampAndSigner(c.timestamp, c.signer);
    match c.sessionToken {
      case Some(t) =>
        assert TokenPart(c.sessionToken) + tail == ",\"sessionToken\":" + (Quote(t) + tail);
        ExpectLiteral(",\"sessionToken\":", Quote(t) + tail);
        ReadQuotedValue(t, tail);
      case None =>
        assert !(",\"sessionToken\":" <= tail) by {
          assert tail[2] == 't';
          assert ",\"sessionToken\":"[2] == 's';
        }
        assert TokenPart(c.sessionToken) + tail == tail;
    }
    ParseTimestampMember(hash, c.sessionToken, c.timestamp, c.signer);
  }

  /** Parsing the payload gives back the claims it was built from. */
  lemma {:induction false} ParsePayloadRoundTrip(c: Claims)
    ensures ParsePayload(Payload(c)) == Some(c)
  {
    var r1 := TokenPart(c.sessionToken) + TimestampAndSigner(c.timestamp, c.signer);
    assert Payload(c) == "{\"documentHash\":" + (Quote(c.documentHash) + r1);
    ExpectLiteral("{\"documentHash\":", Quote(c.documentHash) + r1);
    ReadQuotedValue(c.documentHash, r1);
    ParseTokenMember(c.documentHash, c);
  }

  /** Different claims never share a payload: signing-time and
      verification-time serializations agree exactly when the claims do. */
  lemma PayloadInjective(c1: Claims, c2: Claims)
    ensures Payload(c1) == Payload(c2) <==> c1 == c2
  {
    if Payload(c1) == Payload(c2) {
      ParsePayloadRoundTrip(c1);
      ParsePayloadRoundTrip(c2);
    }
  }
}
