/** Base64 as in sections 3.5 and 4 of RFC 4648, and the check the server makes on payloads. */
module Base64 {
  import opened Common

  type byte = x: int | 0 <= x < 256
  type sextet = x: int | 0 <= x < 64
  type Bytes = seq<byte>

  const MAX_PAYLOAD_BYTES: nat := 64 * 1024
  const PLAINTEXT_PROTOCOL: int := 0
  const PLAINTEXT_TYPE: string := "PLAINTEXT"

  function Letter(v: sextet): (c: char)
    ensures Value(c) == Some(v) && c != '='
  {
    if v < 26 then (v + 65) as char
    else if v < 52 then (v + 71) as char
    else if v < 62 then (v - 4) as char
    else if v == 62 then '+' else '/'
  }

  function Value(c: char): (v: Option<sextet>)
  {
    if 'A' <= c <= 'Z' then Some(c as int - 65)
    else if 'a' <= c <= 'z' then Some(c as int - 71)
    else if '0' <= c <= '9' then Some(c as int + 4)
    else if c == '+' then Some(62)
    else if c == '/' then Some(63)
    else None
  }

  // The four sextets of a group of three bytes, and back.
  function S0(x: byte): sextet { x / 4 }
  function S1(x: byte, y: byte): sextet { x % 4 * 16 + y / 16 }
  function S2(y: byte, z: byte): sextet { y % 16 * 4 + z / 64 }
  function T1(x: byte): sextet { x % 4 * 16 }
  function T2(y: byte): sextet { y % 16 * 4 }
  function S3(z: byte): sextet { z % 64 }
  function B0(a: sextet, b: sextet): byte { a * 4 + b / 16 }
  function B1(b: sextet, c: sextet): byte { b % 16 * 16 + c / 4 }
  function B2(c: sextet, d: sextet): byte { c % 4 * 64 + d }

  lemma Unpack4(k: int, m: int)
    requires 0 <= m < 4
    ensures (k * 4 + m) / 4 == k && (k * 4 + m) % 4 == m
  {
  }

  lemma Unpack16(k: int, m: int)
    requires 0 <= m < 16
    ensures (k * 16 + m) / 16 == k && (k * 16 + m) % 16 == m
  {
  }

  lemma FirstByte(x: byte, y: byte)
    ensures B0(S0(x), S1(x, y)) == x && B0(S0(x), T1(x)) == x
  {
    Unpack16(x % 4, y / 16);
    Unpack16(x % 4, 0);
  }

  lemma SecondByte(x: byte, y: byte, z: byte)
    ensures B1(S1(x, y), S2(y, z)) == y && B1(S1(x, y), T2(y)) == y
  {
    Unpack16(x % 4, y / 16);
    Unpack4(y % 16, z / 64);
    Unpack4(y % 16, 0);
  }

  lemma ThirdByte(y: byte, z: byte)
    ensures B2(S2(y, z), S3(z)) == z
  {
    Unpack4(y % 16, z / 64);
  }

  function Encode(b: Bytes): (s: string)
    ensures |s| == 4 * ((|b| + 2) / 3)
  {
    if |b| == 0 then ""
    else if |b| == 1 then [Letter(S0(b[0])), Letter(T1(b[0])), '=', '=']
    else if |b| == 2 then [Letter(S0(b[0])), Letter(S1(b[0], b[1])), Letter(T2(b[1])), '=']
    else EncodeGroup(b[0], b[1], b[2]) + Encode(b[3..])
  }

  function EncodeGroup(x: byte, y: byte, z: byte): (s: string)
    ensures |s| == 4
  {
    [Letter(S0(x)), Letter(S1(x, y)), Letter(S2(y, z)), Letter(S3(z))]
  }

  /** A decoder that, like the library the server calls, does not look at the unused low
      bits before padding. Padding may only close the last group of four. */
  function Decode(s: string): (r: Option<Bytes>)
  {
    if |s| == 0 then Some([])
    else if |s| < 4 then None
    else
      var group := DecodeGroup(s[0], s[1], s[2], s[3]);
      if group.None? then None
      else if |group.value| < 3 then (if |s| == 4 then group else None)
      else
        match Decode(s[4..])
        case Some(rest) => Some(group.value + rest)
        case None => None
  }

  function DecodeGroup(c0: char, c1: char, c2: char, c3: char): (r: Option<Bytes>)
  {
    FromSextets(Value(c0), Value(c1), Value(c2), Value(c3), c2 == '=', c3 == '=')
  }

  function FromSextets(a: Option<sextet>, b: Option<sextet>, c: Option<sextet>, d: Option<sextet>,
                       pad2: bool, pad3: bool): (r: Option<Bytes>)
  {
    if a.None? || b.None? then None
    else if c.None? then (if d.None? && pad2 && pad3 then Some([B0(a.value, b.value)]) else None)
    else if d.None? then
      (if pad3 then Some([B0(a.value, b.value), B1(b.value, c.value)]) else None)
    else Some([B0(a.value, b.value), B1(b.value, c.value), B2(c.value, d.value)])
  }

  lemma DecodeThree(x: byte, y: byte, z: byte)
    ensures var g := EncodeGroup(x, y, z); DecodeGroup(g[0], g[1], g[2], g[3]) == Some([x, y, z])
  {
    hide S0, S1, S2, S3, T1, T2, B0, B1, B2, Letter;
    FirstByte(x, y);
    SecondByte(x, y, z);
    ThirdByte(y, z);
  }

  lemma DecodeTwo(x: byte, y: byte)
    ensures DecodeGroup(Letter(S0(x)), Letter(S1(x, y)), Letter(T2(y)), '=') == Some([x, y])
  {
    hide S0, S1, S2, S3, T1, T2, B0, B1, B2, Letter;
    FirstByte(x, y);
    SecondByte(x, y, y);
    assert Value('=') == None;
  }

  lemma DecodeOne(x: byte)
    ensures DecodeGroup(Letter(S0(x)), Letter(T1(x)), '=', '=') == Some([x])
  {
    hide S0, S1, S2, S3, T1, T2, B0, B1, B2, Letter;
    FirstByte(x, x);
    assert Value('=') == None;
  }

  lemma {:induction false} DecodeEncode(b: Bytes)
    ensures Decode(Encode(b)) == Some(b)
  {
    hide DecodeGroup, EncodeGroup;
    if |b| >= 3 {
      DecodeEncode(b[3..]);
      DecodeThree(b[0], b[1], b[2]);
      DecodeConcat(EncodeGroup(b[0], b[1], b[2]), Encode(b[3..]));
      assert b == [b[0], b[1], b[2]] + b[3..];
    } else {
      DecodeEncodeShort(b);
    }
  }

  lemma DecodeEncodeShort(b: Bytes)
    requires |b| < 3
    ensures Decode(Encode(b)) == Some(b)
  {
    hide DecodeGroup, Letter, S0, S1, S2, T1, T2;
    if |b| == 2 {
      DecodeTwo(b[0], b[1]);
      DecodeLast(Encode(b));
      assert b == [b[0], b[1]];
    } else if |b| == 1 {
      DecodeOne(b[0]);
      DecodeLast(Encode(b));
      assert b == [b[0]];
    }
  }

  lemma DecodeLast(group: string)
    requires |group| == 4
    requires DecodeGroup(group[0], group[1], group[2], group[3]).Some?
    requires |DecodeGroup(group[0], group[1], group[2], group[3]).value| < 3
    ensures Decode(group) == DecodeGroup(group[0], group[1], group[2], group[3])
  {
  }

  lemma DecodeConcat(group: string, rest: string)
    requires |group| == 4
    requires DecodeGroup(group[0], group[1], group[2], group[3]).Some?
    requires |DecodeGroup(group[0], group[1], group[2], group[3]).value| == 3
    requires Decode(rest).Some?
    ensures Decode(group + rest)
         == Some(DecodeGroup(group[0], group[1], group[2], group[3]).value + Decode(rest).value)
  {
    var s := group + rest;
    assert s[4..] == rest;
    assert s[0] == group[0] && s[1] == group[1] && s[2] == group[2] && s[3] == group[3];
  }

  /** Two payloads with one encoding are one payload. */
  lemma EncodeInjective(a: Bytes, b: Bytes)
    requires Encode(a) == Encode(b)
    ensures a == b
  {
    DecodeEncode(a);
    DecodeEncode(b);
  }

  datatype ClientEnvelope = ClientEnvelope(device: nat, protocol: int, kind: string, payload: string)

  datatype EnvelopeError = UnsupportedProtocol | TooLarge | NotBase64 | NotCanonical

  function ValidateEnvelope(e: ClientEnvelope): (r: Result<Bytes, EnvelopeError>)
  {
    if e.protocol != PLAINTEXT_PROTOCOL || e.kind != PLAINTEXT_TYPE then Err(UnsupportedProtocol)
    else if |e.payload| > 4 * ((MAX_PAYLOAD_BYTES + 2) / 3) then Err(TooLarge)
    else
      match Decode(e.payload)
      case None => Err(NotBase64)
      case Some(decoded) =>
        if |decoded| > MAX_PAYLOAD_BYTES then Err(TooLarge)
        else if Encode(decoded) != e.payload then Err(NotCanonical)
        else Ok(decoded)
  }

  /** The server stores `b` for an envelope exactly when the payload is the one encoding of
      `b` and `b` fits: no two payload strings are stored as the same bytes. */
  lemma ValidatesExactlyEncodings(e: ClientEnvelope, b: Bytes)
    ensures ValidateEnvelope(e) == Ok(b)
      <==> e.protocol == PLAINTEXT_PROTOCOL && e.kind == PLAINTEXT_TYPE
           && e.payload == Encode(b) && |b| <= MAX_PAYLOAD_BYTES
  {
    DecodeEncode(b);
    if e.payload == Encode(b) && |b| <= MAX_PAYLOAD_BYTES {
      assert (|b| + 2) / 3 <= (MAX_PAYLOAD_BYTES + 2) / 3;
    }
  }
}
