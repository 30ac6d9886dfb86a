/**
 Hexadecimal and the two Base64 alphabets (sections 8, 4 and 5 of RFC 4648), as
 checksum headers and transfer tokens use them.
 */
module Encoding {
  import opened Wrappers
  import opened Content

  predicate IsLowerHexChar(c: char) { '0' <= c <= '9' || 'a' <= c <= 'f' }

  predicate IsHexChar(c: char) { IsLowerHexChar(c) || 'A' <= c <= 'F' }

  function HexValue(c: char): (v: int)
    requires IsHexChar(c)
    ensures 0 <= v < 16
  {
    if c <= '9' then (c - '0') as int else if c <= 'F' then (c - 'A') as int + 10 else (c - 'a') as int + 10
  }

  function HexChar(v: int): char
    requires 0 <= v < 16
  {
    if v < 10 then '0' + v as char else 'a' + (v - 10) as char
  }

  /** Decodes pairs of digits up to the first that is not a pair. */
  function HexDecode(text: string): Bytes {
    if |text| < 2 || !IsHexChar(text[0]) || !IsHexChar(text[1]) then []
    else [HexByte(text[0], text[1])] + HexDecode(text[2..])
  }

  function HexEncode(bytes: Bytes): string {
    if bytes == [] then ""
    else [HexChar(bytes[0] as int / 16), HexChar(bytes[0] as int % 16)] + HexEncode(bytes[1..])
  }

  lemma HexTable(v: int)
    requires 0 <= v < 16
    ensures HexChar(v) == "0123456789abcdef"[v]
  {
  }

  function HexByte(high: char, low: char): byte
    requires IsHexChar(high) && IsHexChar(low)
  {
    (16 * HexValue(high) + HexValue(low)) as byte
  }

  lemma HexByteDigits(high: char, low: char)
    requires IsLowerHexChar(high) && IsLowerHexChar(low)
    ensures [HexChar(HexByte(high, low) as int / 16), HexChar(HexByte(high, low) as int % 16)] == [high, low]
  {
  }

  lemma {:induction false} HexRoundTrip(text: string, pairs: nat)
    requires IsLowerHex(text, 2 * pairs)
    ensures HexEncode(HexDecode(text)) == text && |HexDecode(text)| == pairs
  {
    hide HexChar, HexByte;
    if pairs > 0 {
      assert IsLowerHexChar(text[0]) && IsLowerHexChar(text[1]);
      HexRoundTrip(text[2..], pairs - 1);
      HexByteDigits(text[0], text[1]);
      assert HexDecode(text)[1..] == HexDecode(text[2..]);
      assert text == [text[0], text[1]] + text[2..];
    }
  }

  // ---------------------------------------------------------------- six-bit groups

  type Six = x: int | 0 <= x < 64

  function Sextets(b: Bytes): seq<Six> {
    if b == [] then []
    else if |b| == 1 then [b[0] as int / 4, b[0] as int % 4 * 16]
    else if |b| == 2 then [b[0] as int / 4, b[0] as int % 4 * 16 + b[1] as int / 16, b[1] as int % 16 * 4]
    else Triple(b[0] as int, b[1] as int, b[2] as int) + Sextets(b[3..])
  }

  function Triple(x: int, y: int, z: int): (s: seq<Six>)
    requires 0 <= x < 256 && 0 <= y < 256 && 0 <= z < 256
    ensures |s| == 4
  {
    [x / 4, x % 4 * 16 + y / 16, y % 16 * 4 + z / 64, z % 64]
  }

  /** The bytes whole groups carry; a lone trailing group carries none. */
  function FromSextets(s: seq<Six>): Bytes {
    if |s| < 2 then []
    else if |s| == 2 then [Byte0(s[0], s[1])]
    else if |s| == 3 then [Byte0(s[0], s[1]), Byte1(s[1], s[2])]
    else [Byte0(s[0], s[1]), Byte1(s[1], s[2]), Byte2(s[2], s[3])] + FromSextets(s[4..])
  }

  function Byte0(p: Six, q: Six): byte { (p * 4 + q / 16) as byte }

  function Byte1(q: Six, r: Six): byte { (q % 16 * 16 + r / 4) as byte }

  function Byte2(r: Six, t: Six): byte { (r % 4 * 64 + t) as byte }

  lemma TripleRoundTrip(x: byte, y: byte, z: byte)
    ensures var s := Triple(x as int, y as int, z as int);
            Byte0(s[0], s[1]) == x && Byte1(s[1], s[2]) == y && Byte2(s[2], s[3]) == z
  {
  }

  lemma TailRoundTrip(x: byte, y: byte)
    ensures Byte0(x as int / 4, x as int % 4 * 16) == x
    ensures Byte0(x as int / 4, x as int % 4 * 16 + y as int / 16) == x
    ensures Byte1(x as int % 4 * 16 + y as int / 16, y as int % 16 * 4) == y
  {
  }

  lemma {:induction false} SextetsRoundTrip(b: Bytes)
    ensures FromSextets(Sextets(b)) == b
  {
    hide Triple, Byte0, Byte1, Byte2;
    if |b| >= 3 {
      TripleRoundTrip(b[0], b[1], b[2]);
      SextetsRoundTrip(b[3..]);
      assert Sextets(b)[4..] == Sextets(b[3..]);
      assert b == [b[0], b[1], b[2]] + b[3..];
    } else if |b| > 0 {
      TailRoundTrip(b[0], b[|b| - 1]);
    }
  }

  /** As the standard reads it, every three bytes are one number of 24 bits, and so are its four groups. */
  lemma {:induction false} GroupsAreBits(b: Bytes, i: nat)
    requires 3 * i + 2 < |b|
    ensures 4 * i + 3 < |Sextets(b)|
    ensures var s := Sextets(b);
            b[3 * i] as int * 0x1_0000 + b[3 * i + 1] as int * 0x100 + b[3 * i + 2] as int
            == s[4 * i] as int * 0x4_0000 + s[4 * i + 1] as int * 0x1000 + s[4 * i + 2] as int * 0x40
               + s[4 * i + 3] as int
  {
    if i > 0 {
      GroupsAreBits(b[3..], i - 1);
      assert Sextets(b)[4..] == Sextets(b[3..]);
    }
  }

  /** The last one or two bytes fill up two or three groups with zero bits. */
  lemma {:induction false} TailIsBits(b: Bytes)
    ensures |Sextets(b)| == |b| / 3 * 4 + (if |b| % 3 == 0 then 0 else |b| % 3 + 1)
    ensures var s, n, k := Sextets(b), |b|, |Sextets(b)|;
            && (n % 3 == 1 ==> b[n - 1] as int * 0x10 == s[k - 2] as int * 0x40 + s[k - 1] as int)
            && (n % 3 == 2 ==>
                  (b[n - 2] as int * 0x100 + b[n - 1] as int) * 4
                  == s[k - 3] as int * 0x1000 + s[k - 2] as int * 0x40 + s[k - 1] as int)
  {
    if |b| >= 3 {
      TailIsBits(b[3..]);
      assert Sextets(b)[4..] == Sextets(b[3..]);
    }
  }

  // -------------------------------------------------------------------- alphabets

  datatype Alphabet = Standard | UrlSafe

  function Char(alphabet: Alphabet, v: Six): char {
    if v < 26 then 'A' + v as char
    else if v < 52 then 'a' + (v - 26) as char
    else if v < 62 then '0' + (v - 52) as char
    else if v == 62 then (if alphabet.Standard? then '+' else '-')
    else (if alphabet.Standard? then '/' else '_')
  }

  const UPPER := "ABCDEFGHIJKLMNOPQRSTUVWXYZ"
  const LOWER := "abcdefghijklmnopqrstuvwxyz"
  const DIGITS := "0123456789"

  /** The two alphabets differ in their last two characters. */
  lemma AlphabetTables(v: Six)
    ensures Char(Standard, v) == (UPPER + LOWER + DIGITS + "+/")[v]
    ensures Char(UrlSafe, v) == (UPPER + LOWER + DIGITS + "-_")[v]
  {
  }

  function Value(alphabet: Alphabet, c: char): Option<Six> {
    if 'A' <= c <= 'Z' then Some((c - 'A') as int)
    else if 'a' <= c <= 'z' then Some((c - 'a') as int + 26)
    else if '0' <= c <= '9' then Some((c - '0') as int + 52)
    else if c == Char(alphabet, 62) then Some(62)
    else if c == Char(alphabet, 63) then Some(63)
    else None
  }

  lemma CharValue(alphabet: Alphabet, v: Six)
    ensures var c := Char(alphabet, v);
            Value(alphabet, c) == Some(v) && c != '=' && c != '\r' && c != '\n' && (alphabet.UrlSafe? ==> c != '.')
  {
  }

  function Text(alphabet: Alphabet, s: seq<Six>): string {
    if s == [] then "" else [Char(alphabet, s[0])] + Text(alphabet, s[1..])
  }

  /** The values of a text, skipping line breaks; nothing if it leaves the alphabet. */
  function Values(alphabet: Alphabet, text: string): Option<seq<Six>> {
    if text == "" then Some([])
    else if text[0] == '\r' || text[0] == '\n' then Values(alphabet, text[1..])
    else
      var first := Value(alphabet, text[0]);
      var rest := Values(alphabet, text[1..]);
      if first.Some? && rest.Some? then Some([first.value] + rest.value) else None
  }

  lemma {:induction false} TextRoundTrip(alphabet: Alphabet, s: seq<Six>)
    ensures Values(alphabet, Text(alphabet, s)) == Some(s)
    ensures |Text(alphabet, s)| == |s|
    ensures forall i | 0 <= i < |s| :: Text(alphabet, s)[i] == Char(alphabet, s[i])
  {
    hide Char, Value;
    if s == [] {
      assert Text(alphabet, s) == "" && Values(alphabet, "") == Some([]);
    } else {
      CharValue(alphabet, s[0]);
      TextRoundTrip(alphabet, s[1..]);
      assert Text(alphabet, s)[1..] == Text(alphabet, s[1..]);
      assert [s[0]] + s[1..] == s;
    }
  }

  // ------------------------------------------------------------- standard, padded

  function Padding(groups: nat): string {
    if groups % 4 == 2 then "==" else if groups % 4 == 3 then "=" else ""
  }

  function Base64(b: Bytes): string {
    Text(Standard, Sextets(b)) + Padding(|Sextets(b)|)
  }

  /** Padding with equals signs makes every text whole groups of four. */
  lemma PaddedLength(b: Bytes)
    ensures |Base64(b)| == (|b| + 2) / 3 * 4
    ensures forall i | |Sextets(b)| <= i < |Base64(b)| :: Base64(b)[i] == '='
  {
    hide Sextets, Text, Values;
    TailIsBits(b);
    TextRoundTrip(Standard, Sextets(b));
    GroupCount(|b|, |Sextets(b)|);
  }

  lemma GroupCount(bytes: nat, groups: nat)
    requires groups == bytes / 3 * 4 + (if bytes % 3 == 0 then 0 else bytes % 3 + 1)
    ensures groups + |Padding(groups)| == (bytes + 2) / 3 * 4
    ensures forall i | 0 <= i < |Padding(groups)| :: Padding(groups)[i] == '='
  {
  }

  /** The text proper ends at the first padding character, or at the end. */
  lemma EndsAtPadding(s: seq<Six>, text: string)
    requires text == Text(Standard, s) + Padding(|s|)
    ensures |s| <= |text|
    ensures forall i | 0 <= i < |s| :: text[i] != '='
    ensures |s| < |text| ==> text[|s|] == '='
  {
    hide Char;
    TextRoundTrip(Standard, s);
    forall i | 0 <= i < |s| ensures text[i] != '=' {
      CharValue(Standard, s[i]);
    }
  }

  lemma Base64Injective(a: Bytes, b: Bytes)
    requires Base64(a) == Base64(b)
    ensures a == b
  {
    var x, y := Sextets(a), Sextets(b);
    EndsAtPadding(x, Base64(a));
    EndsAtPadding(y, Base64(a));
    TextRoundTrip(Standard, x);
    TextRoundTrip(Standard, y);
    assert Base64(a)[..|x|] == Text(Standard, x);
    assert Base64(b)[..|y|] == Text(Standard, y);
    SextetsRoundTrip(a);
    SextetsRoundTrip(b);
  }

  /** A validated digest in a provider's header encoding. */
  function Base64Digest(hexDigest: string): string {
    Base64(HexDecode(hexDigest))
  }

  /** Comparing encoded headers compares the digests themselves. */
  lemma Base64DigestInjective(a: string, b: string, pairs: nat)
    requires IsLowerHex(a, 2 * pairs) && IsLowerHex(b, 2 * pairs)
    ensures Base64Digest(a) == Base64Digest(b) <==> a == b
    ensures pairs > 0 ==> Base64Digest(a) != ""
  {
    HexRoundTrip(a, pairs);
    HexRoundTrip(b, pairs);
    if Base64Digest(a) == Base64Digest(b) {
      Base64Injective(HexDecode(a), HexDecode(b));
    }
    TextRoundTrip(Standard, Sextets(HexDecode(a)));
  }

  function Lower(c: char): char {
    if 'A' <= c <= 'Z' then 'a' + (c - 'A') else c
  }

  lemma LowerDigit(c: char, d: char)
    requires Lower(c) == Lower(d)
    ensures IsHexChar(c) <==> IsHexChar(d)
    ensures IsHexChar(c) ==> HexValue(c) == HexValue(d)
  {
  }

  lemma {:induction false} DecodeIgnoresCase(a: string, b: string)
    requires |a| == |b| && forall i | 0 <= i < |a| :: Lower(a[i]) == Lower(b[i])
    ensures HexDecode(a) == HexDecode(b)
  {
    hide Lower, IsHexChar;
    if |a| >= 2 {
      LowerDigit(a[0], b[0]);
      LowerDigit(a[1], b[1]);
      DecodeIgnoresCase(a[2..], b[2..]);
    }
  }

  /**
   Outside lowercase hexadecimal the header does not identify the digest: texts that
   differ only in case share it, so the validation's lowercase is needed.
   */
  lemma DigestIgnoresCase(a: string, b: string)
    requires |a| == |b| && forall i | 0 <= i < |a| :: Lower(a[i]) == Lower(b[i])
    ensures Base64Digest(a) == Base64Digest(b)
  {
    DecodeIgnoresCase(a, b);
  }

  // --------------------------------------------------------------- URL-safe, raw

  function RawUrl(b: Bytes): string {
    Text(UrlSafe, Sextets(b))
  }

  /** Decoding without padding: a lone trailing character is an error. */
  function RawUrlDecode(text: string): Option<Bytes> {
    var values := Values(UrlSafe, text);
    if values.None? || |values.value| % 4 == 1 then None else Some(FromSextets(values.value))
  }

  lemma {:induction false} SextetsNoLone(b: Bytes)
    ensures |Sextets(b)| % 4 != 1 && (b != [] ==> Sextets(b) != [])
  {
    if |b| >= 3 {
      SextetsNoLone(b[3..]);
    }
  }

  /** A raw URL-safe text decodes to the bytes it encodes, and never holds the token's separator. */
  lemma RawUrlRoundTrip(b: Bytes)
    ensures RawUrlDecode(RawUrl(b)) == Some(b)
    ensures forall i | 0 <= i < |RawUrl(b)| :: RawUrl(b)[i] != '.'
    ensures b != [] ==> RawUrl(b) != ""
  {
    hide Char, Value;
    TextRoundTrip(UrlSafe, Sextets(b));
    SextetsRoundTrip(b);
    SextetsNoLone(b);
    forall i | 0 <= i < |RawUrl(b)| ensures RawUrl(b)[i] != '.' {
      CharValue(UrlSafe, Sextets(b)[i]);
    }
  }
}
