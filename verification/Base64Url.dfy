/**
  Unpadded base64url (section 5 of RFC 4648) as the two ends compute it: the browser through `btoa`
  and `atob` (apps/web/src/e2e.ts), the connector through Go's `base64.RawURLEncoding`.
*/
module Base64Url {
  import opened Bytes
  import opened Wrappers

  type Digit = d: int | 0 <= d < 64

  // ---- groups of six bits ----------------------------------------------------------------------

  function Digit0(a: Byte): Digit { a / 4 }
  function Digit1(a: Byte, b: Byte): Digit { a % 4 * 16 + b / 16 }
  function Digit2(b: Byte, c: Byte): Digit { b % 16 * 4 + c / 64 }
  function Digit3(c: Byte): Digit { c % 64 }

  function Byte0(p: Digit, q: Digit): Byte { p as int * 4 + q / 16 }
  function Byte1(q: Digit, r: Digit): Byte { q as int % 16 * 16 + r / 4 }
  function Byte2(r: Digit, s: Digit): Byte { r as int % 4 * 64 + s }

  function Digits(b: Bytes): seq<Digit> {
    if |b| == 0 then []
    else if |b| == 1 then [Digit0(b[0]), Digit1(b[0], 0)]
    else if |b| == 2 then [Digit0(b[0]), Digit1(b[0], b[1]), Digit2(b[1], 0)]
    else [Digit0(b[0]), Digit1(b[0], b[1]), Digit2(b[1], b[2]), Digit3(b[2])] + Digits(b[3..])
  }

  /** Left-over bits are dropped unread by both decoders; a single left-over digit is an error. */
  function Undigits(d: seq<Digit>): Option<Bytes> {
    if |d| == 0 then Some([])
    else if |d| == 1 then None
    else if |d| == 2 then Some([Byte0(d[0], d[1])])
    else if |d| == 3 then Some([Byte0(d[0], d[1]), Byte1(d[1], d[2])])
    else
      match Undigits(d[4..])
      case None => None
      case Some(rest) => Some([Byte0(d[0], d[1]), Byte1(d[1], d[2]), Byte2(d[2], d[3])] + rest)
  }

  /** The left-over bits are zero. */
  predicate Canonical(d: seq<Digit>) {
    && |d| % 4 != 1
    && (|d| % 4 == 2 ==> d[|d| - 1] % 16 == 0)
    && (|d| % 4 == 3 ==> d[|d| - 1] % 4 == 0)
  }

  lemma Regroup(a: Byte, b: Byte, c: Byte)
    ensures Byte0(Digit0(a), Digit1(a, b)) == a
    ensures Byte1(Digit1(a, b), Digit2(b, c)) == b
    ensures Byte2(Digit2(b, c), Digit3(c)) == c
  {
  }

  lemma Ungroup(p: Digit, q: Digit, r: Digit, s: Digit)
    ensures Digit0(Byte0(p, q)) == p
    ensures Digit1(Byte0(p, q), Byte1(q, r)) == q && (Digit1(Byte0(p, q), 0) == q <==> q % 16 == 0)
    ensures Digit2(Byte1(q, r), Byte2(r, s)) == r && (Digit2(Byte1(q, r), 0) == r <==> r % 4 == 0)
    ensures Digit3(Byte2(r, s)) == s
  {
  }

  lemma DigitsStep(a: Byte, b: Byte, c: Byte, rest: Bytes)
    ensures Digits([a, b, c] + rest) == [Digit0(a), Digit1(a, b), Digit2(b, c), Digit3(c)] + Digits(rest)
  {
    assert ([a, b, c] + rest)[3..] == rest;
  }

  lemma UndigitsStep(p: Digit, q: Digit, r: Digit, s: Digit, rest: seq<Digit>)
    ensures Undigits([p, q, r, s] + rest) ==
            match Undigits(rest)
            case None => None
            case Some(b) => Some([Byte0(p, q), Byte1(q, r), Byte2(r, s)] + b)
  {
    assert ([p, q, r, s] + rest)[4..] == rest;
  }

  lemma ShortDigits(a: Byte, b: Byte)
    ensures Digits([]) == []
    ensures Digits([a]) == [Digit0(a), Digit1(a, 0)]
    ensures Digits([a, b]) == [Digit0(a), Digit1(a, b), Digit2(b, 0)]
  {
    hide Digit0, Digit1, Digit2;
  }

  lemma ShortBytes(p: Digit, q: Digit, r: Digit)
    ensures Undigits([]) == Some([]) && Undigits([p]) == None
    ensures Undigits([p, q]) == Some([Byte0(p, q)])
    ensures Undigits([p, q, r]) == Some([Byte0(p, q), Byte1(q, r)])
  {
    hide Byte0, Byte1;
  }

  lemma ShortCanonical(p: Digit, q: Digit, r: Digit)
    ensures Canonical([]) && !Canonical([p])
    ensures Canonical([p, q]) <==> q % 16 == 0
    ensures Canonical([p, q, r]) <==> r % 4 == 0
  {
  }

  lemma LowBitsAreZero(a: Byte, b: Byte)
    ensures Digit1(a, 0) % 16 == 0 && Digit2(b, 0) % 4 == 0
  {
  }

  lemma ShortRoundTrip(b: Bytes)
    requires |b| < 3
    ensures Undigits(Digits(b)) == Some(b)
    ensures Canonical(Digits(b)) && |Digits(b)| == (4 * |b| + 2) / 3
  {
    hide *;
    if |b| == 0 {
      ShortDigits(0, 0);
      ShortBytes(0, 0, 0);
      ShortCanonical(0, 0, 0);
    } else if |b| == 1 {
      assert b == [b[0]];
      Regroup(b[0], 0, 0);
      LowBitsAreZero(b[0], 0);
      ShortDigits(b[0], 0);
      ShortBytes(Digit0(b[0]), Digit1(b[0], 0), 0);
      ShortCanonical(Digit0(b[0]), Digit1(b[0], 0), 0);
    } else {
      assert b == [b[0], b[1]];
      Regroup(b[0], b[1], 0);
      LowBitsAreZero(b[0], b[1]);
      ShortDigits(b[0], b[1]);
      ShortBytes(Digit0(b[0]), Digit1(b[0], b[1]), Digit2(b[1], 0));
      ShortCanonical(Digit0(b[0]), Digit1(b[0], b[1]), Digit2(b[1], 0));
    }
  }

  lemma {:induction false} DigitsRoundTrip(b: Bytes)
    ensures Undigits(Digits(b)) == Some(b)
    ensures Canonical(Digits(b)) && |Digits(b)| == (4 * |b| + 2) / 3
  {
    hide *;
    if |b| < 3 {
      ShortRoundTrip(b);
    } else {
      var rest := b[3..];
      assert b == [b[0], b[1], b[2]] + rest;
      Regroup(b[0], b[1], b[2]);
      DigitsRoundTrip(rest);
      DigitsStep(b[0], b[1], b[2], rest);
      UndigitsStep(Digit0(b[0]), Digit1(b[0], b[1]), Digit2(b[1], b[2]), Digit3(b[2]), Digits(rest));
      CanonicalStep(Digits(b), Digits(rest));
    }
  }

  lemma CanonicalStep(d: seq<Digit>, rest: seq<Digit>)
    requires |d| >= 4 && d[4..] == rest
    ensures Canonical(d) <==> Canonical(rest)
  {
  }

  lemma ShortUndigits(d: seq<Digit>)
    requires |d| < 4
    ensures Undigits(d).Some? <==> |d| % 4 != 1
    ensures Undigits(d).Some? ==> (Digits(Undigits(d).value) == d <==> Canonical(d))
  {
    hide *;
    if |d| == 0 {
      ShortBytes(0, 0, 0);
      ShortDigits(0, 0);
      ShortCanonical(0, 0, 0);
    } else if |d| == 1 {
      assert d == [d[0]];
      ShortBytes(d[0], 0, 0);
    } else if |d| == 2 {
      assert d == [d[0], d[1]];
      Ungroup(d[0], d[1], 0, 0);
      ShortBytes(d[0], d[1], 0);
      ShortDigits(Byte0(d[0], d[1]), 0);
      ShortCanonical(d[0], d[1], 0);
    } else {
      assert d == [d[0], d[1], d[2]];
      Ungroup(d[0], d[1], d[2], 0);
      ShortBytes(d[0], d[1], d[2]);
      ShortDigits(Byte0(d[0], d[1]), Byte1(d[1], d[2]));
      ShortCanonical(d[0], d[1], d[2]);
    }
  }

  /** Which digit strings decode, and which of those are what the encoder would have written. */
  lemma {:induction false} UndigitsRoundTrip(d: seq<Digit>)
    ensures Undigits(d).Some? <==> |d| % 4 != 1
    ensures Undigits(d).Some? ==> (Digits(Undigits(d).value) == d <==> Canonical(d))
  {
    hide *;
    if |d| < 4 {
      ShortUndigits(d);
    } else {
      var rest := d[4..];
      assert d == [d[0], d[1], d[2], d[3]] + rest;
      Ungroup(d[0], d[1], d[2], d[3]);
      UndigitsRoundTrip(rest);
      UndigitsStep(d[0], d[1], d[2], d[3], rest);
      CanonicalStep(d, rest);
      if Undigits(rest).Some? {
        DigitsStep(Byte0(d[0], d[1]), Byte1(d[1], d[2]), Byte2(d[2], d[3]), Undigits(rest).value);
      }
    }
  }

  // ---- alphabets -------------------------------------------------------------------------------

  function StdSymbol(d: Digit): char {
    if d < 26 then ('A' as int + d) as char
    else if d < 52 then ('a' as int + d - 26) as char
    else if d < 62 then ('0' as int + d - 52) as char
    else if d == 62 then '+' else '/'
  }

  function UrlSymbol(d: Digit): char {
    if d == 62 then '-' else if d == 63 then '_' else StdSymbol(d)
  }

  function StdDigit(c: char): Option<Digit> {
    if 'A' <= c <= 'Z' then Some(c as int - 'A' as int)
    else if 'a' <= c <= 'z' then Some(c as int - 'a' as int + 26)
    else if '0' <= c <= '9' then Some(c as int - '0' as int + 52)
    else if c == '+' then Some(62)
    else if c == '/' then Some(63)
    else None
  }

  function UrlDigit(c: char): Option<Digit> {
    if c == '-' then Some(62) else if c == '_' then Some(63)
    else if c == '+' || c == '/' then None
    else StdDigit(c)
  }

  function StdSymbols(d: seq<Digit>): string {
    seq(|d|, k requires 0 <= k < |d| => StdSymbol(d[k]))
  }

  function UrlSymbols(d: seq<Digit>): string {
    seq(|d|, k requires 0 <= k < |d| => UrlSymbol(d[k]))
  }

  predicate InStd(s: string) {
    forall k | 0 <= k < |s| :: StdDigit(s[k]).Some?
  }

  predicate InUrl(s: string) {
    forall k | 0 <= k < |s| :: UrlDigit(s[k]).Some?
  }

  function StdDigits(s: string): seq<Digit>
    requires InStd(s)
  {
    seq(|s|, k requires 0 <= k < |s| => StdDigit(s[k]).value)
  }

  function UrlDigits(s: string): seq<Digit>
    requires InUrl(s)
  {
    seq(|s|, k requires 0 <= k < |s| => UrlDigit(s[k]).value)
  }

  // ---- Go: base64.RawURLEncoding ---------------------------------------------------------------

  function GoEncode(b: Bytes): string {
    UrlSymbols(Digits(b))
  }

  predicate IsNewline(c: char) {
    c == '\n' || c == '\r'
  }

  /** The decoder skips newlines anywhere. */
  function WithoutNewlines(s: string): string {
    if s == "" then "" else if IsNewline(s[0]) then WithoutNewlines(s[1..]) else [s[0]] + WithoutNewlines(s[1..])
  }

  function GoDecode(s: string): Option<Bytes> {
    var t := WithoutNewlines(s);
    if InUrl(t) then Undigits(UrlDigits(t)) else None
  }

  // ---- browser: btoa and atob ------------------------------------------------------------------

  function Chars(b: Bytes): string {
    seq(|b|, k requires 0 <= k < |b| => b[k] as char)
  }

  predicate IsBinary(s: string) {
    forall k | 0 <= k < |s| :: s[k] < 256 as char
  }

  function Codes(s: string): Bytes
    requires IsBinary(s)
  {
    seq(|s|, k requires 0 <= k < |s| => s[k] as int)
  }

  function Padding(bytes: nat): string {
    if bytes % 3 == 0 then "" else if bytes % 3 == 1 then "==" else "="
  }

  function BtoA(binary: string): string
    requires IsBinary(binary)
  {
    StdSymbols(Digits(Codes(binary))) + Padding(|binary|)
  }

  function ReplaceAll(s: string, from: char, to: char): string {
    seq(|s|, k requires 0 <= k < |s| => if s[k] == from then to else s[k])
  }

  /** `replace(/=+$/, "")` */
  function StripEquals(s: string): string {
    if s != "" && s[|s| - 1] == '=' then StripEquals(s[..|s| - 1]) else s
  }

  function BrowserEncode(b: Bytes): string {
    StripEquals(ReplaceAll(ReplaceAll(BtoA(Chars(b)), '+', '-'), '/', '_'))
  }

  predicate IsAsciiSpace(c: char) {
    c == ' ' || c == '\t' || c == '\n' || c == '\r' || c as int == 12
  }

  function WithoutSpaces(s: string): string {
    if s == "" then "" else if IsAsciiSpace(s[0]) then WithoutSpaces(s[1..]) else [s[0]] + WithoutSpaces(s[1..])
  }

  /** A whole number of quads may end in one or two padding characters. */
  function WithoutPadding(s: string): string {
    if |s| % 4 != 0 || s == "" || s[|s| - 1] != '=' then s
    else if s[|s| - 2] == '=' then s[..|s| - 2]
    else s[..|s| - 1]
  }

  function AtoB(s: string): (r: Option<string>)
    ensures r.Some? ==> IsBinary(r.value)
  {
    var t := WithoutPadding(WithoutSpaces(s));
    if !InStd(t) then None
    else
      match Undigits(StdDigits(t))
      case None => None
      case Some(b) => Some(Chars(b))
  }

  /** `"===".slice((value.length + 3) % 4)`: what is left of three characters. */
  function Missing(length: nat): string {
    seq(3 - (length + 3) % 4, _ => '=')
  }

  function Padded(value: string): string {
    ReplaceAll(ReplaceAll(value, '-', '+'), '_', '/') + Missing(|value|)
  }

  function BrowserDecode(value: string): Option<Bytes> {
    match AtoB(Padded(value))
    case None => None
    case Some(binary) => Some(Codes(binary))
  }

  // ---- the two agree ---------------------------------------------------------------------------

  lemma CodesOfChars(b: Bytes)
    ensures IsBinary(Chars(b)) && Codes(Chars(b)) == b
  {
  }

  lemma {:induction false} StripPadding(s: string, padding: string)
    requires s == "" || s[|s| - 1] != '='
    requires forall k | 0 <= k < |padding| :: padding[k] == '='
    ensures StripEquals(s + padding) == s
    decreases |padding|
  {
    if padding == [] {
      assert s + padding == s;
    } else {
      StripPadding(s, padding[..|padding| - 1]);
      assert (s + padding)[..|s + padding| - 1] == s + padding[..|padding| - 1];
    }
  }

  /** The browser's replace-and-strip of a padded encoding is the connector's raw URL encoding. */
  lemma EncodersAgree(b: Bytes)
    ensures BrowserEncode(b) == GoEncode(b)
  {
    CodesOfChars(b);
    var d := Digits(b);
    var padded := StdSymbols(d) + Padding(|b|);
    assert ReplaceAll(ReplaceAll(padded, '+', '-'), '/', '_') == UrlSymbols(d) + Padding(|b|);
    StripPadding(UrlSymbols(d), Padding(|b|));
  }

  lemma {:induction false} NothingToSkip(s: string)
    requires forall k | 0 <= k < |s| :: !IsAsciiSpace(s[k])
    ensures WithoutSpaces(s) == s && WithoutNewlines(s) == s
  {
    if s != "" {
      NothingToSkip(s[1..]);
    }
  }

  lemma StdShape(value: string)
    requires InUrl(value)
    ensures var std := ReplaceAll(ReplaceAll(value, '-', '+'), '_', '/');
            InStd(std) && StdDigits(std) == UrlDigits(value)
  {
  }

  lemma PaddedHasNoSpace(value: string)
    requires InUrl(value)
    ensures forall k | 0 <= k < |Padded(value)| :: !IsAsciiSpace(Padded(value)[k])
  {
    UrlHasNoSpace(value);
    hide UrlDigit;
  }

  lemma ReplaceLength(s: string, from: char, to: char)
    ensures |ReplaceAll(s, from, to)| == |s|
  {
  }

  lemma UnpaddedShape(value: string)
    requires InUrl(value)
    ensures var std := ReplaceAll(ReplaceAll(value, '-', '+'), '_', '/');
            && (|value| % 4 == 1 ==> !InStd(WithoutPadding(Padded(value))))
            && (|value| % 4 != 1 ==> WithoutPadding(Padded(value)) == std)
  {
    var std := ReplaceAll(ReplaceAll(value, '-', '+'), '_', '/');
    StdShape(value);
    ReplaceLength(value, '-', '+');
    ReplaceLength(ReplaceAll(value, '-', '+'), '_', '/');
    hide ReplaceAll;
    PaddingComesOff(std);
  }

  lemma MissingIs(length: nat)
    ensures |Missing(length)| == if length % 4 == 1 then 3 else (4 - length % 4) % 4
    ensures forall k | 0 <= k < |Missing(length)| :: Missing(length)[k] == '='
  {
  }

  lemma PaddingComesOff(std: string)
    requires InStd(std)
    ensures |std| % 4 == 1 ==> !InStd(WithoutPadding(std + Missing(|std|)))
    ensures |std| % 4 != 1 ==> WithoutPadding(std + Missing(|std|)) == std
  {
    MissingIs(|std|);
    var missing := Missing(|std|);
    hide Missing;
    assert StdDigit('=').None?;
    hide StdDigit;
    if |std| % 4 == 1 {
      assert WithoutPadding(std + missing)[|std|] == '=';
    } else {
      ComesOff(std, missing);
    }
  }

  lemma ComesOff(std: string, missing: string)
    requires InStd(std) && StdDigit('=').None? && |missing| <= 2 && (|std| + |missing|) % 4 == 0
    requires forall k | 0 <= k < |missing| :: missing[k] == '='
    ensures WithoutPadding(std + missing) == std
  {
    hide StdDigit;
    var padded := std + missing;
    assert padded[..|std|] == std;
    if missing == [] {
      assert padded == std;
      assert std != "" ==> StdDigit(std[|std| - 1]).Some?;
    } else if |missing| == 1 {
      assert padded[|padded| - 2] == std[|std| - 1] && StdDigit(std[|std| - 1]).Some?;
    }
  }

  /** On strings over the URL alphabet both decoders do the same, and fail on the same lengths only. */
  lemma DecodersAgree(value: string)
    requires InUrl(value)
    ensures BrowserDecode(value) == GoDecode(value)
    ensures GoDecode(value).Some? <==> |value| % 4 != 1
  {
    hide Undigits, Digits, Canonical, InUrl, InStd, StdDigits, UrlDigits, WithoutPadding, Padded, ReplaceAll, Chars, Codes, StdDigit, UrlDigit;
    StdShape(value);
    PaddedHasNoSpace(value);
    UrlHasNoSpace(value);
    NothingToSkip(value);
    NothingToSkip(Padded(value));
    UnpaddedShape(value);
    UndigitsRoundTrip(UrlDigits(value));
    UrlDigitsLength(value);
    if |value| % 4 != 1 {
      CodesOfChars(Undigits(UrlDigits(value)).value);
    }
  }

  lemma UrlHasNoSpace(value: string)
    requires InUrl(value)
    ensures forall k | 0 <= k < |value| :: !IsAsciiSpace(value[k])
  {
  }

  lemma UrlDigitsLength(value: string)
    requires InUrl(value)
    ensures |UrlDigits(value)| == |value|
  {
  }

  lemma SymbolsRoundTrip(d: seq<Digit>)
    ensures InUrl(UrlSymbols(d)) && UrlDigits(UrlSymbols(d)) == d && |UrlSymbols(d)| == |d|
  {
  }

  lemma DigitsOfSymbols(s: string)
    requires InUrl(s)
    ensures UrlSymbols(UrlDigits(s)) == s
  {
  }

  /** Whatever either end encodes, either end decodes back, for every byte string. */
  lemma RoundTrip(b: Bytes)
    ensures BrowserEncode(b) == GoEncode(b)
    ensures BrowserDecode(GoEncode(b)) == Some(b) && GoDecode(GoEncode(b)) == Some(b)
    ensures InUrl(GoEncode(b)) && |GoEncode(b)| == (4 * |b| + 2) / 3
  {
    EncodersAgree(b);
    DigitsRoundTrip(b);
    SymbolsRoundTrip(Digits(b));
    var s := GoEncode(b);
    hide Undigits, Digits, InUrl, UrlSymbols, UrlDigits, BrowserDecode;
    DecodersAgree(s);
    UrlHasNoSpace(s);
    NothingToSkip(s);
  }

  /** The other way round: a decoded string is what the encoder writes iff its left-over bits are zero. */
  lemma Reencode(s: string)
    requires InUrl(s) && GoDecode(s).Some?
    ensures GoEncode(GoDecode(s).value) == s <==> Canonical(UrlDigits(s))
  {
    hide Undigits, Digits, InUrl, UrlSymbols, UrlDigits, Canonical;
    UrlHasNoSpace(s);
    NothingToSkip(s);
    UndigitsRoundTrip(UrlDigits(s));
    DigitsOfSymbols(s);
    SymbolsRoundTrip(Digits(GoDecode(s).value));
  }

  // ---- the browser's loops ---------------------------------------------------------------------

  const CHAR_CHUNK := 0x8000

  method BytesToBase64URL(bytes: array<Byte>) returns (s: string)
    ensures s == GoEncode(bytes[..])
  {
    var binary := "";
    var offset := 0;
    while offset < bytes.Length
      invariant 0 <= offset
      invariant binary == Chars(bytes[..if offset < bytes.Length then offset else bytes.Length])
    {
      var end := if offset + CHAR_CHUNK < bytes.Length then offset + CHAR_CHUNK else bytes.Length;
      binary := binary + Chars(bytes[offset..end]);
      offset := offset + CHAR_CHUNK;
    }
    assert bytes[..bytes.Length] == bytes[..];
    CodesOfChars(bytes[..]);
    EncodersAgree(bytes[..]);
    s := StripEquals(ReplaceAll(ReplaceAll(BtoA(binary), '+', '-'), '/', '_'));
  }

  method Base64URLToBytes(value: string) returns (ok: bool, bytes: array<Byte>)
    ensures fresh(bytes)
    ensures BrowserDecode(value) == if ok then Some(bytes[..]) else None
  {
    hide AtoB, Padded;
    var decoded := AtoB(Padded(value));
    if decoded.None? {
      bytes := new Byte[0];
      return false, bytes;
    }
    var binary := decoded.value;
    bytes := new Byte[|binary|](_ => 0);
    var index := 0;
    while index < |binary|
      invariant index <= |binary| && bytes[..index] == Codes(binary)[..index]
    {
      bytes[index] := binary[index] as int;
      index := index + 1;
    }
    assert bytes[..] == Codes(binary);
    ok := true;
  }
}
