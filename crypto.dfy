/**
 * The credential envelope: `encrypt` writes `hex(iv):hex(tag):hex(ciphertext)`
 * under the process-wide `ENCRYPTION_KEY`, and `decrypt` splits such a
 * string on `:` and opens it.
 *
 * AES-256-GCM (NIST SP 800-38D), with the UTF-8 coding of the text, is a
 * pair of functions `Aead`; the round trip holds of every pair that
 * satisfies `Authenticated`. The 12-byte iv that `randomBytes` draws is a
 * parameter.
 */
module Crypto {
  import opened Wrappers
  import opened Strings

  type byte = b: int | 0 <= b < 256

  const IV_LENGTH: nat := 12
  const KEY_LENGTH: nat := 32
  const KEY_NOT_DEFINED_MESSAGE: string := "ENCRYPTION_KEY is not defined"

  /** The lower-case hex digit of a value below 16, as `Buffer.toString("hex")` writes it. */
  function HexDigit(n: int): (c: char)
    requires 0 <= n < 16
  {
    if n < 10 then ('0' as int + n) as char else ('a' as int + n - 10) as char
  }

  /** A character that `Buffer.from(_, "hex")` reads as a digit, in either case. */
  predicate IsHexChar(c: char)
  {
    ('0' <= c <= '9') || ('a' <= c <= 'f') || ('A' <= c <= 'F')
  }

  /** The value of a hex digit. */
  function HexValue(c: char): (n: int)
    requires IsHexChar(c)
    ensures 0 <= n < 16
  {
    if '0' <= c <= '9' then c as int - '0' as int
    else if 'a' <= c <= 'f' then c as int - 'a' as int + 10
    else c as int - 'A' as int + 10
  }

  /** Reading a written digit gives back its value. */
  lemma HexValueOfDigit(n: int)
    requires 0 <= n < 16
    ensures IsHexChar(HexDigit(n)) && HexValue(HexDigit(n)) == n
  {
  }

  /** `Buffer.toString("hex")`: two lower-case hex digits per byte, high nibble first. */
  function HexEncode(bytes: seq<byte>): (hex: string)
    ensures |hex| == 2 * |bytes|
    ensures forall c :: c in hex ==> IsHexChar(c)
  {
    if bytes == [] then ""
    else [HexDigit(bytes[0] / 16), HexDigit(bytes[0] % 16)] + HexEncode(bytes[1..])
  }

  /**
   * `Buffer.from(hex, "hex")`: one byte per pair of hex digits, from the
   * left, stopping at the first pair that is not two hex digits (a lone
   * last character is dropped too).
   */
  function HexDecode(hex: string): (bytes: seq<byte>)
    ensures |bytes| <= |hex| / 2
  {
    if |hex| < 2 || !IsHexChar(hex[0]) || !IsHexChar(hex[1]) then []
    else [HexValue(hex[0]) * 16 + HexValue(hex[1])] + HexDecode(hex[2..])
  }

  /** Decoding what was encoded gives back the bytes. */
  lemma {:induction false} HexRoundTrip(bytes: seq<byte>)
    ensures HexDecode(HexEncode(bytes)) == bytes
  {
    if bytes != [] {
      var b := bytes[0];
      var hex := HexEncode(bytes);
      HexValueOfDigit(b / 16);
      HexValueOfDigit(b % 16);
      assert hex[2..] == HexEncode(bytes[1..]);
      HexRoundTrip(bytes[1..]);
      assert HexValue(hex[0]) * 16 + HexValue(hex[1]) == b;
      assert bytes == [b] + bytes[1..];
    }
  }

  /** Encoded bytes never hold the field separator. */
  lemma HexHasNoColon(bytes: seq<byte>)
    ensures ':' !in HexEncode(bytes)
  {
  }

  /** The three parts of an envelope, as bytes. */
  datatype Envelope = Envelope(iv: seq<byte>, tag: seq<byte>, ciphertext: seq<byte>)

  /** What sealing a text gives: the ciphertext and the authentication tag. */
  datatype Sealed = Sealed(ciphertext: seq<byte>, tag: seq<byte>)

  /**
   * AES-256-GCM as a pair of functions: `seal(key, iv, text)` stands for
   * `cipher.update(text, "utf8")`, `cipher.final()` and `getAuthTag()`;
   * `open(key, iv, tag, ciphertext)` for `setAuthTag`, `update` and
   * `final`, with `None` where `final` throws because the tag does not
   * verify.
   */
  datatype Aead = Aead(
    seal: (seq<byte>, seq<byte>, string) -> Sealed,
    open: (seq<byte>, seq<byte>, seq<byte>, seq<byte>) -> Option<string>)

  /** A correct authenticated cipher: under a 32-byte key and a 12-byte iv, opening undoes sealing. */
  ghost predicate Authenticated(aead: Aead)
  {
    forall key: seq<byte>, iv: seq<byte>, text: string ::
      |key| == KEY_LENGTH && |iv| == IV_LENGTH ==>
        aead.open(key, iv, aead.seal(key, iv, text).tag, aead.seal(key, iv, text).ciphertext) == Some(text)
  }

  /** Why `encrypt` or `decrypt` throws. */
  datatype CryptoError =
    | KeyNotDefined      // ENCRYPTION_KEY is unset or empty
    | InvalidKeyLength   // the decoded key is not 32 bytes: the cipher cannot be created
    | MissingField       // fewer than three fields: `Buffer.from(undefined, "hex")` throws
    | Unauthenticated    // the tag does not verify: `decipher.final` throws

  /** `getEncryptionKey`: the hex-decoded `ENCRYPTION_KEY`, or a failure when it is unset or empty. */
  function GetEncryptionKey(keyEnv: Option<string>): (key: Result<seq<byte>, CryptoError>)
    ensures key.Err? <==> keyEnv.None? || keyEnv == Some("")
    ensures key.Err? ==> key.error == KeyNotDefined
    ensures key.Ok? ==> key.value == HexDecode(keyEnv.value)
  {
    if keyEnv.None? || keyEnv.value == "" then Err(KeyNotDefined)
    else Ok(HexDecode(keyEnv.value))
  }

  /**
   * The text an error is thrown with, where the model's own code writes it:
   * only the missing key; the other errors are thrown by node with its own
   * texts.
   */
  function ErrorMessage(e: CryptoError): (message: Option<string>)
    ensures message.Some? <==> e == KeyNotDefined
    ensures e == KeyNotDefined ==> message == Some(KEY_NOT_DEFINED_MESSAGE)
  {
    if e == KeyNotDefined then Some(KEY_NOT_DEFINED_MESSAGE) else None
  }

  /** The envelope string: the three parts hex-encoded and joined by `:`, in the order iv, tag, ciphertext. */
  function FormatEnvelope(e: Envelope): (encoded: string)
    ensures Split(encoded, ':') == [HexEncode(e.iv), HexEncode(e.tag), HexEncode(e.ciphertext)]
  {
    var ivHex, tagHex, ciphertextHex := HexEncode(e.iv), HexEncode(e.tag), HexEncode(e.ciphertext);
    HexHasNoColon(e.iv);
    HexHasNoColon(e.tag);
    HexHasNoColon(e.ciphertext);
    ThreeFields(ivHex, tagHex, ciphertextHex);
    SplitNoSeparator(ciphertextHex, ':');
    ivHex + ":" + tagHex + ":" + ciphertextHex
  }

  /**
   * `encoded.split(":")` destructured into three: the first three fields,
   * hex-decoded; any further fields are ignored, and a missing one fails.
   */
  function ParseEnvelope(encoded: string): (e: Result<Envelope, CryptoError>)
    ensures e.Err? <==> |Split(encoded, ':')| < 3
    ensures e.Err? ==> e.error == MissingField
  {
    var fields := Split(encoded, ':');
    if |fields| < 3 then Err(MissingField)
    else Ok(Envelope(HexDecode(fields[0]), HexDecode(fields[1]), HexDecode(fields[2])))
  }

  /** Splitting an envelope recovers exactly the three parts that were joined. */
  lemma EnvelopeRoundTrip(e: Envelope)
    ensures ParseEnvelope(FormatEnvelope(e)) == Ok(e)
  {
    HexRoundTrip(e.iv);
    HexRoundTrip(e.tag);
    HexRoundTrip(e.ciphertext);
  }

  /**
   * `encrypt`: fails when the key is unset, or is not 32 bytes; otherwise
   * seals the text under the given 12-byte iv and writes the envelope.
   */
  function Encrypt(keyEnv: Option<string>, aead: Aead, iv: seq<byte>, text: string): (encoded: Result<string, CryptoError>)
    requires |iv| == IV_LENGTH
    ensures keyEnv.None? || keyEnv == Some("") ==> encoded == Err(KeyNotDefined)
    ensures encoded.Ok? <==> GetEncryptionKey(keyEnv).Ok? && |GetEncryptionKey(keyEnv).value| == KEY_LENGTH
    ensures encoded.Ok? ==>
      var sealed := aead.seal(GetEncryptionKey(keyEnv).value, iv, text);
      Split(encoded.value, ':') == [HexEncode(iv), HexEncode(sealed.tag), HexEncode(sealed.ciphertext)]
    ensures encoded.Ok? ==> |Split(encoded.value, ':')[0]| == 2 * IV_LENGTH
  {
    match GetEncryptionKey(keyEnv)
    case Err(e) => Err(e)
    case Ok(key) =>
      if |key| != KEY_LENGTH then Err(InvalidKeyLength)
      else
        var sealed := aead.seal(key, iv, text);
        Ok(FormatEnvelope(Envelope(iv, sealed.tag, sealed.ciphertext)))
  }

  /**
   * `decrypt`: fails when the key is unset, or is not 32 bytes, or the
   * string has fewer than three fields, or the tag does not verify, in that
   * order; a verified envelope gives back exactly the text it opens to.
   */
  function Decrypt(keyEnv: Option<string>, aead: Aead, encoded: string): (text: Result<string, CryptoError>)
    ensures keyEnv.None? || keyEnv == Some("") ==> text == Err(KeyNotDefined)
    ensures GetEncryptionKey(keyEnv).Ok? && |GetEncryptionKey(keyEnv).value| != KEY_LENGTH ==>
      text == Err(InvalidKeyLength)
    ensures GetEncryptionKey(keyEnv).Ok? && |GetEncryptionKey(keyEnv).value| == KEY_LENGTH && |Split(encoded, ':')| < 3 ==>
      text == Err(MissingField)
    ensures text.Ok? <==>
      && GetEncryptionKey(keyEnv).Ok?
      && |GetEncryptionKey(keyEnv).value| == KEY_LENGTH
      && ParseEnvelope(encoded).Ok?
      && var e := ParseEnvelope(encoded).value;
         aead.open(GetEncryptionKey(keyEnv).value, e.iv, e.tag, e.ciphertext).Some?
    ensures GetEncryptionKey(keyEnv).Ok? && |GetEncryptionKey(keyEnv).value| == KEY_LENGTH && ParseEnvelope(encoded).Ok? ==>
      var e := ParseEnvelope(encoded).value;
      var result := aead.open(GetEncryptionKey(keyEnv).value, e.iv, e.tag, e.ciphertext);
      && (result.None? ==> text == Err(Unauthenticated))
      && (result.Some? ==> text == Ok(result.value))
  {
    match GetEncryptionKey(keyEnv)
    case Err(e) => Err(e)
    case Ok(key) =>
      if |key| != KEY_LENGTH then Err(InvalidKeyLength)
      else
        match ParseEnvelope(encoded)
        case Err(e) => Err(e)
        case Ok(e) =>
          match aead.open(key, e.iv, e.tag, e.ciphertext)
          case None => Err(Unauthenticated)
          case Some(plain) => Ok(plain)
  }

  /** With the same key and a correct cipher, decrypting what `encrypt` wrote gives back the text. */
  lemma EncryptDecryptRoundTrip(keyEnv: Option<string>, aead: Aead, iv: seq<byte>, text: string)
    requires |iv| == IV_LENGTH
    requires Encrypt(keyEnv, aead, iv, text).Ok?
    ensures Authenticated(aead) ==> Decrypt(keyEnv, aead, Encrypt(keyEnv, aead, iv, text).value) == Ok(text)
  {
    var key := GetEncryptionKey(keyEnv).value;
    var sealed := aead.seal(key, iv, text);
    EnvelopeRoundTrip(Envelope(iv, sealed.tag, sealed.ciphertext));
  }

  /** Envelopes written under different ivs differ, whatever the texts. */
  lemma DistinctIvsGiveDistinctEnvelopes(keyEnv: Option<string>, aead: Aead, iv1: seq<byte>, iv2: seq<byte>, text1: string, text2: string)
    requires |iv1| == IV_LENGTH && |iv2| == IV_LENGTH && iv1 != iv2
    requires Encrypt(keyEnv, aead, iv1, text1).Ok?
    ensures Encrypt(keyEnv, aead, iv1, text1) != Encrypt(keyEnv, aead, iv2, text2)
  {
    var key := GetEncryptionKey(keyEnv).value;
    var sealed1, sealed2 := aead.seal(key, iv1, text1), aead.seal(key, iv2, text2);
    EnvelopeRoundTrip(Envelope(iv1, sealed1.tag, sealed1.ciphertext));
    EnvelopeRoundTrip(Envelope(iv2, sealed2.tag, sealed2.ciphertext));
  }

  /** `decrypt` reads only the first three fields: anything after a third `:` is ignored. */
  lemma DecryptIgnoresExtraFields(keyEnv: Option<string>, aead: Aead, iv: string, tag: string, ciphertext: string, extra: string)
    requires ':' !in iv && ':' !in tag && ':' !in ciphertext
    ensures Decrypt(keyEnv, aead, iv + ":" + tag + ":" + ciphertext + ":" + extra) ==
            Decrypt(keyEnv, aead, iv + ":" + tag + ":" + ciphertext)
  {
    var long := iv + ":" + tag + ":" + ciphertext + ":" + extra;
    var short := iv + ":" + tag + ":" + ciphertext;
    ThreeFields(iv, tag, ciphertext + ":" + extra);
    ThreeFields(iv, tag, ciphertext);
    SplitAfterField(ciphertext, ':', extra);
    SplitNoSeparator(ciphertext, ':');
    assert long == iv + ":" + tag + ":" + (ciphertext + ":" + extra);
    assert Split(long, ':')[..3] == Split(short, ':');
    assert ParseEnvelope(long) == ParseEnvelope(short);
  }

  /** Splitting `a:b:rest`, with no `:` in `a` or `b`, gives `a`, `b` and the pieces of `rest`. */
  lemma ThreeFields(a: string, b: string, rest: string)
    requires ':' !in a && ':' !in b
    ensures Split(a + ":" + b + ":" + rest, ':') == [a, b] + Split(rest, ':')
  {
    SplitAfterField(b, ':', rest);
    SplitAfterField(a, ':', b + ":" + rest);
    assert a + ":" + b + ":" + rest == a + [':'] + (b + [':'] + rest);
  }
}
