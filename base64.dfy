/** The browser's `atob`: the forgiving-base64 decode of the WHATWG Infra
    Standard, which `createAudioBlob` relies on, together with the standard
    padded encoding of RFC 4648, section 4, that produces the payloads it
    decodes. */
module Base64 {
  import opened Wrappers

  newtype byte = x: int | 0 <= x < 256

  /** The value of one base64 digit. */
  type sextet = x: int | 0 <= x < 64

  /** The ASCII whitespace that forgiving-base64 decode removes first. */
  predicate IsAsciiWhitespace(c: char) {
    c == '\t' || c == '\n' || c == '\U{C}' || c == '\r' || c == ' '
  }

  /** The 64 digits of the standard alphabet (RFC 4648, section 4, table 1). */
  predicate IsDigit(c: char) {
    ('A' <= c <= 'Z') || ('a' <= c <= 'z') || ('0' <= c <= '9') || c == '+' || c == '/'
  }

  predicate AllDigits(s: string) {
    forall k | 0 <= k < |s| :: IsDigit(s[k])
  }

  function SextetOf(c: char): sextet
    requires IsDigit(c)
  {
    if 'A' <= c <= 'Z' then c as int - 'A' as int
    else if 'a' <= c <= 'z' then c as int - 'a' as int + 26
    else if '0' <= c <= '9' then c as int - '0' as int + 52
    else if c == '+' then 62
    else 63
  }

  /** The digit for a sextet; reading it back gives the same sextet. */
  function DigitOf(v: sextet): (c: char)
    ensures IsDigit(c) && SextetOf(c) == v
  {
    if v < 26 then ('A' as int + v) as char
    else if v < 52 then ('a' as int + v - 26) as char
    else if v < 62 then ('0' as int + v - 52) as char
    else if v == 62 then '+'
    else '/'
  }

  /** Step 1 of forgiving-base64 decode: drop every ASCII whitespace character. */
  function RemoveAsciiWhitespace(s: string): (r: string)
    ensures |r| <= |s|
    ensures forall k | 0 <= k < |r| :: !IsAsciiWhitespace(r[k])
    ensures (forall k | 0 <= k < |s| :: !IsAsciiWhitespace(s[k])) ==> r == s
  {
    if s == [] then []
    else if IsAsciiWhitespace(s[0]) then RemoveAsciiWhitespace(s[1..])
    else [s[0]] + RemoveAsciiWhitespace(s[1..])
  }

  /** Step 2: when the length is a multiple of four, drop one or two trailing '='. */
  function StripPadding(s: string): string
  {
    if |s| % 4 == 0 && |s| >= 2 && s[|s| - 2..] == "==" then s[..|s| - 2]
    else if |s| % 4 == 0 && |s| >= 1 && s[|s| - 1] == '=' then s[..|s| - 1]
    else s
  }

  /** The bytes a group of 2, 3 or 4 digits stands for; leftover low bits of the
      last digit are discarded. */
  function Byte0(v0: sextet, v1: sextet): byte { (v0 * 4 + v1 / 16) as byte }
  function Byte1(v1: sextet, v2: sextet): byte { ((v1 % 16) * 16 + v2 / 4) as byte }
  function Byte2(v2: sextet, v3: sextet): byte { ((v2 % 4) * 64 + v3) as byte }

  /** Steps 5 and 6: decode the digits, three bytes per four digits. */
  function DecodeDigits(s: string): (r: seq<byte>)
    requires AllDigits(s) && |s| % 4 != 1
    ensures |r| == |s| / 4 * 3 + (if |s| % 4 == 0 then 0 else |s| % 4 - 1)
    decreases |s|
  {
    if |s| == 0 then []
    else if |s| == 2 then [Byte0(SextetOf(s[0]), SextetOf(s[1]))]
    else if |s| == 3 then
      [Byte0(SextetOf(s[0]), SextetOf(s[1])), Byte1(SextetOf(s[1]), SextetOf(s[2]))]
    else
      [Byte0(SextetOf(s[0]), SextetOf(s[1])), Byte1(SextetOf(s[1]), SextetOf(s[2])),
       Byte2(SextetOf(s[2]), SextetOf(s[3]))] + DecodeDigits(s[4..])
  }

  /** Forgiving-base64 decode: `None` is the algorithm's failure. */
  function ForgivingDecode(s: string): (r: Option<seq<byte>>)
    ensures r.Some? <==> var d := StripPadding(RemoveAsciiWhitespace(s)); |d| % 4 != 1 && AllDigits(d)
  {
    var d := StripPadding(RemoveAsciiWhitespace(s));
    if |d| % 4 == 1 || !AllDigits(d) then None else Some(DecodeDigits(d))
  }

  /** The "binary string" `atob` returns: one character per byte, its code the byte. */
  function BinaryString(b: seq<byte>): string
  {
    seq(|b|, i requires 0 <= i < |b| => (b[i] as int) as char)
  }

  /** The message of the `InvalidCharacterError` DOMException `atob` throws. Its
      exact wording is the browser's own; the model fixes one. */
  const AtobFailure := "The string to be decoded is not correctly encoded."

  /** `atob(s)`: the decoded bytes as a binary string, or the thrown error. */
  function Atob(s: string): (r: Result<string>)
    ensures r.Ok? <==> ForgivingDecode(s).Some?
    ensures r.Ok? ==> r.value == BinaryString(ForgivingDecode(s).value)
    ensures r.Err? ==> r.message == AtobFailure
  {
    match ForgivingDecode(s)
    case None => Err(AtobFailure)
    case Some(b) => Ok(BinaryString(b))
  }

  /** RFC 4648, section 4, without the trailing padding: four digits per three
      bytes, then two digits for one leftover byte or three for two. */
  function EncodeDigits(b: seq<byte>): (s: string)
    ensures AllDigits(s) && |s| % 4 != 1
    ensures |s| == |b| / 3 * 4 + (if |b| % 3 == 0 then 0 else |b| % 3 + 1)
  {
    if |b| == 0 then []
    else if |b| == 1 then
      [DigitOf(b[0] as int / 4), DigitOf((b[0] as int % 4) * 16)]
    else if |b| == 2 then
      [DigitOf(b[0] as int / 4), DigitOf((b[0] as int % 4) * 16 + b[1] as int / 16),
       DigitOf((b[1] as int % 16) * 4)]
    else EncodeGroup(b[0], b[1], b[2]) + EncodeDigits(b[3..])
  }

  /** The four digits of three whole bytes. */
  function EncodeGroup(b0: byte, b1: byte, b2: byte): (g: string)
    ensures |g| == 4 && AllDigits(g)
  {
    [DigitOf(b0 as int / 4), DigitOf((b0 as int % 4) * 16 + b1 as int / 16),
     DigitOf((b1 as int % 16) * 4 + b2 as int / 64), DigitOf(b2 as int % 64)]
  }

  /** RFC 4648, section 4: the digits padded with '=' to a multiple of four. */
  function Encode(b: seq<byte>): (s: string)
    ensures |s| % 4 == 0
  {
    PaddedLength(|b|);
    EncodeDigits(b) + (if |b| % 3 == 1 then "==" else if |b| % 3 == 2 then "=" else "")
  }

  /** The digits and the padding of `n` bytes fill whole groups of four. */
  lemma PaddedLength(n: nat)
    ensures var digits := n / 3 * 4 + (if n % 3 == 0 then 0 else n % 3 + 1);
      (digits + if n % 3 == 1 then 2 else if n % 3 == 2 then 1 else 0) % 4 == 0
  {
    var q := n / 3;
    assert (q * 4) % 4 == 0;
    assert (q * 4 + 4) % 4 == 0;
  }

  /** Decoding the digits of one group gives back the bytes it was made from. */
  lemma GroupRoundTrip(b0: byte, b1: byte, b2: byte)
    ensures Byte0(b0 as int / 4, (b0 as int % 4) * 16 + b1 as int / 16) == b0
    ensures Byte1((b0 as int % 4) * 16 + b1 as int / 16, (b1 as int % 16) * 4 + b2 as int / 64) == b1
    ensures Byte2((b1 as int % 16) * 4 + b2 as int / 64, b2 as int % 64) == b2
    ensures Byte0(b0 as int / 4, (b0 as int % 4) * 16) == b0
    ensures Byte1((b0 as int % 4) * 16 + b1 as int / 16, (b1 as int % 16) * 4) == b1
  {
    var x0, x1, x2 := b0 as int, b1 as int, b2 as int;
    assert ((x0 % 4) * 16 + x1 / 16) / 16 == x0 % 4;
    assert ((x0 % 4) * 16 + x1 / 16) % 16 == x1 / 16;
    assert ((x1 % 16) * 4 + x2 / 64) / 4 == x1 % 16;
    assert ((x1 % 16) * 4 + x2 / 64) % 4 == x2 / 64;
    assert ((x0 % 4) * 16) / 16 == x0 % 4;
    assert ((x1 % 16) * 4) / 4 == x1 % 16;
  }

  /** Decoding a whole group followed by more digits decodes the group first. */
  lemma DecodeGroupThen(g: string, t: string)
    requires |g| == 4 && AllDigits(g) && AllDigits(t) && |t| % 4 != 1
    ensures AllDigits(g + t) && |g + t| % 4 != 1
    ensures DecodeDigits(g + t) == DecodeDigits(g) + DecodeDigits(t)
  {
    var s := g + t;
    assert s[4..] == t;
    assert AllDigits(s) by {
      forall k | 0 <= k < |s| ensures IsDigit(s[k]) {
        if k >= 4 { assert s[k] == t[k - 4]; }
      }
    }
  }

  /** One whole group decodes to the three bytes it encodes. */
  lemma DecodeGroup(b0: byte, b1: byte, b2: byte)
    ensures DecodeDigits(EncodeGroup(b0, b1, b2)) == [b0, b1, b2]
  {
    var g := EncodeGroup(b0, b1, b2);
    assert g[4..] == [];
    GroupRoundTrip(b0, b1, b2);
  }

  /** The short final groups decode to the one or two bytes they encode. */
  lemma DecodeShortGroups(b0: byte, b1: byte)
    ensures DecodeDigits(EncodeDigits([b0])) == [b0]
    ensures DecodeDigits(EncodeDigits([b0, b1])) == [b0, b1]
  {
    GroupRoundTrip(b0, b1, 0);
  }

  /** Fewer than three bytes make at most one short group. */
  lemma DecodeEncodeShort(b: seq<byte>)
    requires |b| < 3
    ensures DecodeDigits(EncodeDigits(b)) == b
  {
    if |b| == 1 {
      assert b == [b[0]];
      DecodeShortGroups(b[0], 0);
    } else if |b| == 2 {
      assert b == [b[0], b[1]];
      DecodeShortGroups(b[0], b[1]);
    }
  }

  /** Three or more bytes encode as one whole group, then the rest. */
  lemma EncodeStep(b: seq<byte>)
    requires |b| >= 3
    ensures EncodeDigits(b) == EncodeGroup(b[0], b[1], b[2]) + EncodeDigits(b[3..])
  {
  }

  /** Decoding an encoding of three or more bytes yields the first three, then
      the decoding of the rest. */
  lemma DecodeEncodeStep(b: seq<byte>)
    requires |b| >= 3
    ensures DecodeDigits(EncodeDigits(b)) == [b[0], b[1], b[2]] + DecodeDigits(EncodeDigits(b[3..]))
  {
    var g := EncodeGroup(b[0], b[1], b[2]);
    var t := EncodeDigits(b[3..]);
    EncodeStep(b);
    DecodeGroupThen(g, t);
    DecodeGroup(b[0], b[1], b[2]);
  }

  /** Three bytes in front of what decodes to the rest give the whole. */
  lemma PrependGroup(b: seq<byte>, whole: seq<byte>, rest: seq<byte>)
    requires |b| >= 3 && whole == [b[0], b[1], b[2]] + rest && rest == b[3..]
    ensures whole == b
  {
    assert b == [b[0], b[1], b[2]] + b[3..];
  }

  /** The digits of an encoding decode back to the bytes. */
  lemma {:induction false} DecodeEncodeDigits(b: seq<byte>)
    ensures DecodeDigits(EncodeDigits(b)) == b
  {
    if |b| < 3 {
      DecodeEncodeShort(b);
    } else {
      DecodeEncodeDigits(b[3..]);
      DecodeEncodeStep(b);
      PrependGroup(b, DecodeDigits(EncodeDigits(b)), DecodeDigits(EncodeDigits(b[3..])));
    }
  }

  /** The padding of an encoding is exactly what forgiving decode strips. */
  lemma StripPaddingOfEncode(b: seq<byte>)
    ensures StripPadding(Encode(b)) == EncodeDigits(b)
  {
    var d := EncodeDigits(b);
    var s := Encode(b);
    if |b| % 3 == 1 {
      assert s[|s| - 2..] == "==";
      assert s[..|s| - 2] == d;
    } else if |b| % 3 == 2 {
      assert s[|s| - 2] == d[|d| - 1] && IsDigit(d[|d| - 1]);
      assert s[|s| - 2..] != "==";
      assert s[..|s| - 1] == d;
    } else if |s| > 0 {
      assert s == d && IsDigit(d[|d| - 1]);
    }
  }

  /** RFC 4648 round trip through `atob`'s decoder: every padded encoding decodes
      to the bytes it encodes. */
  lemma DecodeEncode(b: seq<byte>)
    ensures ForgivingDecode(Encode(b)) == Some(b)
  {
    var s := Encode(b);
    forall k | 0 <= k < |s| ensures !IsAsciiWhitespace(s[k]) {
      assert IsDigit(s[k]) || s[k] == '=';
    }
    assert RemoveAsciiWhitespace(s) == s;
    StripPaddingOfEncode(b);
    DecodeEncodeDigits(b);
  }

  /** The payload of the narration example decodes to the bytes of "Hello". */
  lemma HelloExample()
    ensures ForgivingDecode("SGVsbG8=") == Some([72, 101, 108, 108, 111])
  {
    HelloEncoding();
    DecodeEncode([72, 101, 108, 108, 111]);
  }

  /** The encoding of the bytes of "Hello": one whole group, then two bytes. */
  lemma HelloEncoding()
    ensures Encode([72, 101, 108, 108, 111]) == "SGVsbG8="
  {
    var hello: seq<byte> := [72, 101, 108, 108, 111];
    EncodeStep(hello);
    assert hello[3..] == [108, 111];
    HelloGroups();
    assert EncodeDigits(hello) == "SGVs" + "bG8";
  }

  lemma HelloGroups()
    ensures EncodeGroup(72, 101, 108) == "SGVs"
    ensures EncodeDigits([108, 111]) == "bG8"
  {
    assert DigitOf(18) == 'S' && DigitOf(6) == 'G' && DigitOf(21) == 'V' && DigitOf(44) == 's';
    assert DigitOf(27) == 'b' && DigitOf(60) == '8';
  }
}
