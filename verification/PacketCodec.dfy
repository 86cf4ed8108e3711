/** Encrypted packets on the wire, in both languages (web/src/e2e.ts and cloud/connector.go). */
module PacketCodec {
  import opened Base64Url
  import opened Bytes
  import opened Wrappers

  const MAX_UINT32: int := 0xffff_ffff
  const SEQUENCE_BYTES := 4
  const NONCE_BYTES := 12
  const TAG_BYTES := 16
  const MAX_ENCRYPTED_PACKET := 0x50_0000

  datatype Direction = FromBrowser | FromConnector

  /** The fields of a packet; `sequence` is the raw four bytes the AAD repeats. */
  datatype Parsed = Fields(sequence: Bytes, nonce: Bytes, sealed: Bytes) | Malformed | TooShort | OutOfOrder

  type Uint32 = n: int | 0 <= n <= MAX_UINT32

  function BigEndian(n: Uint32): (b: Bytes)
    ensures |b| == SEQUENCE_BYTES
  {
    [n / 0x100 / 0x100 / 0x100, n / 0x100 / 0x100 % 0x100, n / 0x100 % 0x100, n % 0x100]
  }

  function ReadUint32(b: Bytes): Uint32
    requires |b| == SEQUENCE_BYTES
  {
    ((b[0] as int * 0x100 + b[1]) * 0x100 + b[2]) * 0x100 + b[3]
  }

  lemma SequenceRoundTrip(n: Uint32)
    ensures ReadUint32(BigEndian(n)) == n
  {
  }

  lemma BytesRoundTrip(b: Bytes)
    requires |b| == SEQUENCE_BYTES
    ensures BigEndian(ReadUint32(b)) == b
  {
    var high := b[0] as int * 0x100 + b[1];
    Quotient(b[0], b[1]);
    Quotient(high, b[2]);
    Quotient(high * 0x100 + b[2], b[3]);
  }

  lemma Quotient(high: int, low: Byte)
    ensures (high * 0x100 + low) / 0x100 == high && (high * 0x100 + low) % 0x100 == low
  {
  }

  // ---- packets ---------------------------------------------------------------------------------

  function EncodePacket(sequence: Uint32, nonce: Bytes, sealed: Bytes): string {
    GoEncode(BigEndian(sequence) + nonce + sealed)
  }

  function Parse(decoded: Option<Bytes>, expected: int): Parsed {
    match decoded
    case None => Malformed
    case Some(bytes) =>
      if |bytes| < SEQUENCE_BYTES + NONCE_BYTES + TAG_BYTES then TooShort
      else if ReadUint32(bytes[..4]) != expected then OutOfOrder
      else Fields(bytes[..4], bytes[4..16], bytes[16..])
  }

  function ConnectorParse(packet: string, expected: Uint32): Parsed {
    Parse(GoDecode(packet), expected)
  }

  /** The browser counts in a JavaScript number, which does not wrap at 2^32. */
  function BrowserParse(packet: string, expected: int): Parsed {
    Parse(BrowserDecode(packet), expected)
  }

  /** Both ends read back what either end packed, and refuse it under any other expected sequence. */
  lemma PacketRoundTrip(sequence: Uint32, nonce: Bytes, sealed: Bytes, expected: int)
    requires |nonce| == NONCE_BYTES && TAG_BYTES <= |sealed|
    ensures var packet := EncodePacket(sequence, nonce, sealed);
            var parsed := if expected == sequence then Fields(BigEndian(sequence), nonce, sealed) else OutOfOrder;
            && BrowserParse(packet, expected) == parsed
            && (expected <= MAX_UINT32 && 0 <= expected ==> ConnectorParse(packet, expected) == parsed)
  {
    var bytes := BigEndian(sequence) + nonce + sealed;
    RoundTrip(bytes);
    SequenceRoundTrip(sequence);
    hide BigEndian, ReadUint32, GoDecode, BrowserDecode, GoEncode;
    assert bytes[..4] == BigEndian(sequence) && bytes[4..16] == nonce && bytes[16..] == sealed;
  }

  /** A packet that parses is the encoding of its fields, up to ignored trailing bits. */
  lemma ParsedIsWhole(bytes: Bytes, expected: int)
    requires Parse(Some(bytes), expected).Fields?
    ensures 0 <= expected <= MAX_UINT32
    ensures var p := Parse(Some(bytes), expected);
            && p.sequence == BigEndian(expected) && |p.nonce| == NONCE_BYTES && |p.sealed| >= TAG_BYTES
            && bytes == BigEndian(expected) + p.nonce + p.sealed
  {
    BytesRoundTrip(bytes[..4]);
    hide BigEndian, ReadUint32;
    assert bytes == bytes[..4] + bytes[4..16] + bytes[16..];
  }

  // ---- additional authenticated data -----------------------------------------------------------

  function Name(direction: Direction): string {
    match direction
    case FromBrowser => "browser"
    case FromConnector => "connector"
  }

  /** `channel` is the UTF-8 of the channel id. */
  function AADPrefix(channel: Bytes, direction: Direction): Bytes {
    Codes("termlinks-e2e-v1:") + channel + Codes(":") + Codes(Name(direction)) + Codes(":")
  }

  function AAD(channel: Bytes, direction: Direction, sequence: Bytes): Bytes {
    AADPrefix(channel, direction) + sequence
  }

  lemma SplitEnd(a: Bytes, b: Bytes, c: Bytes, d: Bytes)
    requires a + b == c + d && |b| == |d|
    ensures a == c && b == d
  {
    assert a == (a + b)[..|a|] && c == (c + d)[..|c|];
    assert b == (a + b)[|a|..] && d == (c + d)[|c|..];
  }

  lemma SplitStart(a: Bytes, b: Bytes, c: Bytes)
    requires a + b == a + c
    ensures b == c
  {
    assert b == (a + b)[|a|..] && c == (a + c)[|a|..];
  }

  lemma NamesDiffer(a: Bytes, b: Bytes)
    ensures a + Codes("browser") != b + Codes("connector")
  {
    var x, y := a + Codes("browser"), b + Codes("connector");
    assert x[|x| - 7] == 'b' as int && y[|y| - 7] == 'n' as int;
  }

  /** No two of channel, direction and sequence share their AAD, whatever bytes the channel ids hold. */
  lemma AADInjective(c1: Bytes, d1: Direction, s1: Bytes, c2: Bytes, d2: Direction, s2: Bytes)
    requires |s1| == |s2| == SEQUENCE_BYTES
    requires AAD(c1, d1, s1) == AAD(c2, d2, s2)
    ensures c1 == c2 && d1 == d2 && s1 == s2
  {
    var context, colon := Codes("termlinks-e2e-v1:"), Codes(":");
    hide Codes;
    var n1, n2 := Codes(Name(d1)), Codes(Name(d2));
    SplitEnd(context + c1 + colon + n1 + colon, s1, context + c2 + colon + n2 + colon, s2);
    SplitEnd(context + c1 + colon + n1, colon, context + c2 + colon + n2, colon);
    NamesDiffer(context + c1 + colon, context + c2 + colon);
    NamesDiffer(context + c2 + colon, context + c1 + colon);
    assert d1 == d2;
    SplitEnd(context + c1 + colon, n1, context + c2 + colon, n2);
    SplitEnd(context + c1, colon, context + c2, colon);
    SplitStart(context, c1, c2);
  }

  // ---- the browser's buffers -------------------------------------------------------------------

  /** `target.set(source, at)` */
  method Set(target: array<Byte>, source: Bytes, at: nat)
    requires at + |source| <= target.Length
    modifies target
    ensures target[..] == old(target[..at]) + source + old(target[at + |source|..])
  {
    forall k | 0 <= k < |source| {
      target[at + k] := source[k];
    }
  }

  /** `encryptionAAD` */
  method EncryptionAAD(channel: Bytes, direction: Direction, sequence: Bytes) returns (aad: array<Byte>)
    ensures fresh(aad) && aad[..] == AAD(channel, direction, sequence)
  {
    hide AADPrefix;
    var prefix := AADPrefix(channel, direction);
    aad := new Byte[|prefix| + |sequence|](_ => 0);
    Set(aad, prefix, 0);
    Set(aad, sequence, |prefix|);
  }

  /** The buffer of `encryptPacket`, after its range check on the sequence. */
  method AssemblePacket(sequence: int, nonce: Bytes, sealed: Bytes) returns (packet: Option<string>)
    ensures packet == if 0 <= sequence < MAX_UINT32 then Some(EncodePacket(sequence, nonce, sealed)) else None
  {
    if sequence < 0 || sequence >= MAX_UINT32 {
      return None;
    }
    hide BigEndian;
    var buffer := new Byte[SEQUENCE_BYTES + |nonce| + |sealed|](_ => 0);
    Set(buffer, BigEndian(sequence), 0);
    Set(buffer, nonce, SEQUENCE_BYTES);
    Set(buffer, sealed, SEQUENCE_BYTES + |nonce|);
    assert buffer[..] == BigEndian(sequence) + nonce + sealed;
    var text := BytesToBase64URL(buffer);
    packet := Some(text);
  }

  // ---- size ------------------------------------------------------------------------------------

  const MAX_TERMINAL_OUTPUT := 0x20_0000

  /** `json.Marshal` of a binary `terminal_data` message: nothing in base64url needs escaping. */
  function TerminalData(id: string, frame: Bytes): string {
    "{\"v\":1,\"type\":\"terminal_data\",\"id\":\"" + id + "\",\"binary\":true,\"data\":\"" + GoEncode(frame) + "\"}"
  }

  const LARGEST_FRAME := 2_949_022

  /**
    A binary frame is encoded twice, once inside its JSON message and once around the sealed message.
    The packet stays within the limit exactly for frames of up to LARGEST_FRAME bytes, so no frame of
    2 MiB is ever refused.
  */
  lemma FrameFits(id: string, frame: Bytes, sequence: Uint32, nonce: Bytes, sealed: Bytes)
    requires |id| == 36 && |nonce| == NONCE_BYTES
    requires |sealed| == |TerminalData(id, frame)| + TAG_BYTES
    ensures |EncodePacket(sequence, nonce, sealed)| <= MAX_ENCRYPTED_PACKET <==> |frame| <= LARGEST_FRAME
    ensures MAX_TERMINAL_OUTPUT <= LARGEST_FRAME
  {
    RoundTrip(frame);
    RoundTrip(BigEndian(sequence) + nonce + sealed);
    hide GoEncode, BigEndian;
  }
}
