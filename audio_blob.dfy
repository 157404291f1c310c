/** `createAudioBlob` of src/lib/audio-utils.ts: strip an anchored
    `data:audio/<type>;base64,` prefix, decode the rest with `atob`, copy the
    decoded characters into a byte array, and canonicalise the MIME type. */
module AudioBlob {
  import opened Wrappers
  import opened JsText
  import opened Base64

  /** Narration audio as the speech service delivers it (the optional
      duration is never read by the core and is not modelled). */
  datatype GeneratedAudio = GeneratedAudio(base64Data: string, mimeType: string)

  /** `new Blob([bytes], { type })`: the blob's bytes and its type, as the
      constructor keeps it (see `BlobType`). */
  datatype Blob = Blob(bytes: seq<byte>, mimeType: string)

  const DataHead := "data:audio/"
  const DataTail := ";base64,"

  /** A text the anchored pattern `^data:audio\/[^;]+;base64,` matches in
      full: the head, one or more characters other than ';', the tail. */
  predicate IsDataUriPrefix(p: string) {
    && |p| > |DataHead| + |DataTail|
    && p[..|DataHead|] == DataHead
    && p[|p| - |DataTail|..] == DataTail
    && forall k | |DataHead| <= k < |p| - |DataTail| :: p[k] != ';'
  }

  /** Length of the text the pattern matches at the start of `s`, or 0. Since
      the middle part cannot hold a ';', the match, when there is one, ends
      with the first ';' after the head. */
  function DataUriPrefixLength(s: string): (n: nat)
    ensures n <= |s|
    ensures n == 0 || IsDataUriPrefix(s[..n])
    ensures forall m | 0 < m <= |s| && IsDataUriPrefix(s[..m]) :: m == n
  {
    if |s| < |DataHead| || s[..|DataHead|] != DataHead then
      NoPrefixWithoutHead(s);
      0
    else
      match IndexOf(s, ";", |DataHead|)
      case None =>
        PrefixEndsAtFirstSemicolon(s);
        0
      case Some(k) =>
        PrefixEndsAtFirstSemicolon(s);
        if k > |DataHead| && k + |DataTail| <= |s| && s[k..k + |DataTail|] == DataTail then
          PrefixAtFirstSemicolon(s, k);
          k + |DataTail|
        else 0
  }

  /** Without the head at position 0 nothing matches. */
  lemma NoPrefixWithoutHead(s: string)
    requires |s| < |DataHead| || s[..|DataHead|] != DataHead
    ensures forall m | 0 < m <= |s| :: !IsDataUriPrefix(s[..m])
  {
    forall m | 0 < m <= |s| && IsDataUriPrefix(s[..m]) ensures false {
    }
  }

  /** The head, a first ';' after it that is not right after it, and the tail
      starting at that ';' make a full match. */
  lemma PrefixAtFirstSemicolon(s: string, k: nat)
    requires |DataHead| < k && k + |DataTail| <= |s| && s[..|DataHead|] == DataHead
    requires IndexOf(s, ";", |DataHead|) == Some(k) && s[k..k + |DataTail|] == DataTail
    ensures IsDataUriPrefix(s[..k + |DataTail|])
  {
    var p := s[..k + |DataTail|];
    assert p[..|DataHead|] == DataHead;
    assert p[|p| - |DataTail|..] == DataTail;
    forall j | |DataHead| <= j < k ensures p[j] != ';' {
      assert !OccursAt(s, ";", j);
      assert s[j..j + 1] == [s[j]];
    }
  }

  /** Any full match ends right after the first ';' that follows the head. */
  lemma PrefixEndsAtFirstSemicolon(s: string)
    requires |DataHead| <= |s|
    ensures forall m | 0 < m <= |s| && IsDataUriPrefix(s[..m]) ::
      IndexOf(s, ";", |DataHead|) == Some(m - |DataTail|) && s[m - |DataTail|..m] == DataTail
  {
    forall m | 0 < m <= |s| && IsDataUriPrefix(s[..m])
      ensures IndexOf(s, ";", |DataHead|) == Some(m - |DataTail|) && s[m - |DataTail|..m] == DataTail
    {
      var p := s[..m];
      var k := m - |DataTail|;
      assert p[k..] == DataTail;
      assert s[k..k + 1] == ";" by { assert s[k] == p[k] == DataTail[0]; }
      assert OccursAt(s, ";", k);
      forall j | |DataHead| <= j < k ensures !OccursAt(s, ";", j) {
        assert s[j] == p[j];
      }
    }
  }

  /** `base64Data.replace(/^data:audio\/[^;]+;base64,/, "")`. */
  function StripDataUriPrefix(s: string): (r: string)
  {
    s[DataUriPrefixLength(s)..]
  }

  /** The prefix is removed exactly when it stands at the very start: then `s`
      is that prefix followed by the result; otherwise nothing is removed. */
  lemma StripAnchored(s: string)
    ensures (exists m | 0 < m <= |s| :: IsDataUriPrefix(s[..m])) ==>
      var n := |s| - |StripDataUriPrefix(s)|;
      IsDataUriPrefix(s[..n]) && s == s[..n] + StripDataUriPrefix(s)
    ensures (forall m | 0 < m <= |s| :: !IsDataUriPrefix(s[..m])) ==>
      StripDataUriPrefix(s) == s
  {
    var n := DataUriPrefixLength(s);
    assert s == s[..n] + s[n..];
    if n == 0 {
      assert s[0..] == s;
    }
  }

  /** Prepending a prefix for any audio subtype is undone by the strip. */
  lemma StripPrepended(subtype: string, rest: string)
    requires subtype != [] && forall k | 0 <= k < |subtype| :: subtype[k] != ';'
    ensures StripDataUriPrefix(DataHead + subtype + DataTail + rest) == rest
  {
    var p := DataHead + subtype + DataTail;
    var s := p + rest;
    assert s[..|p|] == p;
    assert IsDataUriPrefix(p) by {
      forall k | |DataHead| <= k < |p| - |DataTail| ensures p[k] != ';' {
        assert p[k] == subtype[k - |DataHead|];
      }
    }
  }

  /** Base64 digits never look like the prefix. */
  lemma StripEncoded(b: seq<byte>)
    ensures StripDataUriPrefix(Encode(b)) == Encode(b)
  {
    var s := Encode(b);
    if |s| >= |DataHead| {
      assert s[..|DataHead|] != DataHead by {
        assert IsDigit(s[4]);
        assert s[..|DataHead|][4] == s[4];
      }
    }
  }

  /** The MIME type names one of the three recognised families. */
  predicate Recognised(m: string) {
    Contains(m, "mp3") || Contains(m, "mpeg") || Contains(m, "wav") || Contains(m, "ogg")
  }

  /** The canonical types the normaliser produces. */
  predicate IsCanonical(m: string) {
    m == "audio/mpeg" || m == "audio/wav" || m == "audio/ogg"
  }

  /** The MIME if-chain: mp3 or mpeg first, then wav, then ogg, else unchanged. */
  function NormalizeMimeType(m: string): string
  {
    if Contains(m, "mp3") || Contains(m, "mpeg") then "audio/mpeg"
    else if Contains(m, "wav") then "audio/wav"
    else if Contains(m, "ogg") then "audio/ogg"
    else m
  }

  /** Which keywords each canonical type contains. */
  lemma CanonicalKeywords()
    ensures Contains("audio/mpeg", "mpeg")
    ensures !Contains("audio/wav", "mp3") && !Contains("audio/wav", "mpeg") && Contains("audio/wav", "wav")
    ensures !Contains("audio/ogg", "mp3") && !Contains("audio/ogg", "mpeg") && !Contains("audio/ogg", "wav")
    ensures Contains("audio/ogg", "ogg")
  {
    assert OccursAt("audio/mpeg", "mpeg", 6);
    assert OccursAt("audio/wav", "wav", 6);
    assert OccursAt("audio/ogg", "ogg", 6);
    MissingFirstChar("audio/wav", "mp3");
    MissingFirstChar("audio/wav", "mpeg");
    MissingFirstChar("audio/ogg", "mp3");
    MissingFirstChar("audio/ogg", "mpeg");
    MissingFirstChar("audio/ogg", "wav");
  }

  /** The normaliser's result is canonical exactly when the type was
      recognised, and an unrecognised type passes through unchanged. */
  lemma MimeTypeCanonical(m: string)
    ensures IsCanonical(NormalizeMimeType(m)) <==> Recognised(m)
    ensures !Recognised(m) ==> NormalizeMimeType(m) == m
  {
    CanonicalKeywords();
  }

  /** Normalisation is idempotent. */
  lemma MimeTypeIdempotent(m: string)
    ensures NormalizeMimeType(NormalizeMimeType(m)) == NormalizeMimeType(m)
  {
    CanonicalKeywords();
  }

  /** A character the Blob constructor accepts in a type: U+0020 to U+007E. */
  predicate IsPrintableAscii(c: char) {
    ' ' <= c <= '~'
  }

  /** ASCII lowercasing of one character. */
  function AsciiLower(c: char): (r: char)
    ensures !('A' <= r <= 'Z')
    ensures IsPrintableAscii(c) <==> IsPrintableAscii(r)
    ensures !('A' <= c <= 'Z') ==> r == c
  {
    if 'A' <= c <= 'Z' then (c as int + 32) as char else c
  }

  /** A type the Blob constructor keeps as it is: printable ASCII without
      upper-case letters. */
  predicate IsBlobType(t: string) {
    forall k | 0 <= k < |t| :: IsPrintableAscii(t[k]) && !('A' <= t[k] <= 'Z')
  }

  /** The type `new Blob(parts, { type })` keeps (File API, the Blob
      constructor): empty when a character lies outside U+0020 to U+007E,
      otherwise the type lowercased in ASCII. */
  function BlobType(t: string): (r: string)
    ensures IsBlobType(r)
    ensures r == [] <==> t == [] || exists k | 0 <= k < |t| :: !IsPrintableAscii(t[k])
    ensures r != [] ==> |r| == |t| && forall k | 0 <= k < |t| :: r[k] == AsciiLower(t[k])
  {
    if forall k | 0 <= k < |t| :: IsPrintableAscii(t[k]) then
      seq(|t|, k requires 0 <= k < |t| => AsciiLower(t[k]))
    else []
  }

  /** A type that is already printable and lower case is kept, so the
      constructor's rule is idempotent. */
  lemma BlobTypeKeeps(t: string)
    ensures IsBlobType(t) ==> BlobType(t) == t
    ensures BlobType(BlobType(t)) == BlobType(t)
  {
    if IsBlobType(t) {
      assert forall k | 0 <= k < |t| :: IsPrintableAscii(t[k]);
      assert BlobType(t) == seq(|t|, k requires 0 <= k < |t| => AsciiLower(t[k]));
    }
    var r := BlobType(t);
    assert forall k | 0 <= k < |r| :: IsPrintableAscii(r[k]);
    assert BlobType(r) == seq(|r|, k requires 0 <= k < |r| => AsciiLower(r[k]));
  }

  /** An upper-case type is lowercased, and one with a character outside
      printable ASCII is dropped. */
  lemma BlobTypeExamples()
    ensures BlobType("Audio/L16") == "audio/l16"
    ensures BlobType("audio/\U{f3}pus") == ""
  {
    assert !IsPrintableAscii("audio/\U{f3}pus"[6]);
  }

  /** The three canonical types pass through the constructor unchanged. */
  lemma CanonicalBlobTypes(m: string)
    requires IsCanonical(m)
    ensures BlobType(m) == m
  {
    assert IsBlobType(m);
    BlobTypeKeeps(m);
  }

  /** The prefix of every error `createAudioBlob` throws. */
  const BlobErrorPrefix := "Failed to create audio blob: "

  /** `charCodeAt`: the code of a character (every character `atob` returns is
      below 256, where a UTF-16 code unit and the code point agree). */
  function CharCode(c: char): nat { c as int }

  /** Reading the character codes of a binary string back, modulo 256, gives
      the bytes it was made from. */
  lemma BinaryStringCodes(b: seq<byte>, copied: seq<byte>)
    requires |copied| == |b|
    requires forall j | 0 <= j < |b| :: copied[j] as int == CharCode(BinaryString(b)[j]) % 256
    ensures copied == b
  {
    forall j | 0 <= j < |b| ensures copied[j] == b[j] {
      assert BinaryString(b)[j] as int == b[j] as int;
    }
  }

  /** What `createAudioBlob` returns or throws, as a value. */
  function BlobOf(audio: GeneratedAudio): (r: Result<Blob>)
  {
    match ForgivingDecode(StripDataUriPrefix(audio.base64Data))
    case None => Err(BlobErrorPrefix + AtobFailure)
    case Some(b) => Ok(Blob(b, BlobType(NormalizeMimeType(audio.mimeType))))
  }

  /** What blob creation means in terms of `atob`: it succeeds exactly when
      `atob` does on the stripped payload, each byte is the code of the
      character at its position modulo 256, the type is normalised and then
      kept as the Blob constructor keeps it, and a
      failure carries `atob`'s message behind the fixed prefix. */
  lemma BlobOfAtob(audio: GeneratedAudio)
    ensures var dec := Atob(StripDataUriPrefix(audio.base64Data));
      && (BlobOf(audio).Ok? <==> dec.Ok?)
      && (BlobOf(audio).Ok? ==>
        && |BlobOf(audio).value.bytes| == |dec.value|
        && (forall i | 0 <= i < |dec.value| :: BlobOf(audio).value.bytes[i] as int == CharCode(dec.value[i]) % 256)
        && BlobOf(audio).value.mimeType == BlobType(NormalizeMimeType(audio.mimeType)))
      && (BlobOf(audio).Err? ==> BlobOf(audio).message == BlobErrorPrefix + dec.message)
  {
    var clean := StripDataUriPrefix(audio.base64Data);
    AtobCodes(clean);
  }

  /** The character codes of what `atob` returns, modulo 256, are the decoded
      bytes. */
  lemma AtobCodes(clean: string)
    ensures Atob(clean).Ok? <==> ForgivingDecode(clean).Some?
    ensures Atob(clean).Ok? ==> |Atob(clean).value| == |ForgivingDecode(clean).value|
    ensures Atob(clean).Ok? ==> forall i | 0 <= i < |Atob(clean).value| ::
      ForgivingDecode(clean).value[i] as int == CharCode(Atob(clean).value[i]) % 256
    ensures Atob(clean).Err? ==> Atob(clean).message == AtobFailure
  {
    if ForgivingDecode(clean).Some? {
      var b := ForgivingDecode(clean).value;
      assert Atob(clean).value == BinaryString(b);
      CodesOfBinaryString(b);
    }
  }

  /** The codes of a binary string, modulo 256, are its bytes. */
  lemma CodesOfBinaryString(b: seq<byte>)
    ensures forall i | 0 <= i < |b| :: b[i] as int == CharCode(BinaryString(b)[i]) % 256
  {
    var bin := BinaryString(b);
    forall i | 0 <= i < |b| ensures b[i] as int == CharCode(bin[i]) % 256 {
      assert bin[i] as int == b[i] as int;
    }
  }

  /** `createAudioBlob`: decode, then fill a `Uint8Array` one character code
      at a time (a `Uint8Array` store keeps the code modulo 256). */
  method CreateAudioBlob(audio: GeneratedAudio) returns (r: Result<Blob>)
    ensures r == BlobOf(audio)
  {
    var clean := StripDataUriPrefix(audio.base64Data);
    var decoded := Atob(clean);
    if decoded.Err? {
      return Err(BlobErrorPrefix + decoded.message);
    }
    var bytes := CopyCharCodes(decoded.value);
    BinaryStringCodes(ForgivingDecode(clean).value, bytes);
    var mimeType := NormalizeMimeType(audio.mimeType);
    r := Ok(Blob(bytes, BlobType(mimeType)));
  }

  /** The decoding loop: a fresh `Uint8Array` of the string's length, filled
      with each character's code modulo 256. */
  method CopyCharCodes(binaryString: string) returns (bytes: seq<byte>)
    ensures |bytes| == |binaryString|
    ensures forall j | 0 <= j < |bytes| :: bytes[j] as int == CharCode(binaryString[j]) % 256
  {
    var a := new byte[|binaryString|];
    for i := 0 to |binaryString|
      invariant forall j | 0 <= j < i :: a[j] as int == CharCode(binaryString[j]) % 256
    {
      a[i] := (CharCode(binaryString[i]) % 256) as byte;
    }
    bytes := a[..];
  }

  /** Encoding bytes and wrapping them in a data URI of any audio subtype gives
      back those bytes, under the normalised type. */
  lemma BlobOfDataUri(subtype: string, b: seq<byte>, mimeType: string)
    requires subtype != [] && forall k | 0 <= k < |subtype| :: subtype[k] != ';'
    ensures BlobOf(GeneratedAudio(DataHead + subtype + DataTail + Encode(b), mimeType))
      == Ok(Blob(b, BlobType(NormalizeMimeType(mimeType))))
    ensures Recognised(mimeType) ==>
      BlobOf(GeneratedAudio(DataHead + subtype + DataTail + Encode(b), mimeType)).value.mimeType
        == NormalizeMimeType(mimeType)
  {
    MimeTypeCanonical(mimeType);
    if Recognised(mimeType) {
      CanonicalBlobTypes(NormalizeMimeType(mimeType));
    }
    StripPrepended(subtype, Encode(b));
    DecodeEncode(b);
  }

  /** A bare base64 payload without a prefix decodes the same way. */
  lemma BlobOfBare(b: seq<byte>, mimeType: string)
    ensures BlobOf(GeneratedAudio(Encode(b), mimeType)) == Ok(Blob(b, BlobType(NormalizeMimeType(mimeType))))
  {
    StripEncoded(b);
    DecodeEncode(b);
  }

  /** Every failure of blob creation carries the fixed prefix. */
  lemma BlobErrorsArePrefixed(audio: GeneratedAudio)
    ensures BlobOf(audio).Err? ==> BlobErrorPrefix <= BlobOf(audio).message
  {
  }

  /** The documented example: an mp3 data URI of "SGVsbG8=" gives the bytes of
      "Hello" typed `audio/mpeg`. */
  lemma HelloBlob()
    ensures BlobOf(GeneratedAudio("data:audio/mp3;base64,SGVsbG8=", "audio/mpeg"))
      == Ok(Blob([72, 101, 108, 108, 111], "audio/mpeg"))
  {
    assert "data:audio/mp3;base64,SGVsbG8=" == DataHead + "mp3" + DataTail + "SGVsbG8=";
    StripPrepended("mp3", "SGVsbG8=");
    HelloExample();
    CanonicalKeywords();
    CanonicalBlobTypes("audio/mpeg");
  }
}
