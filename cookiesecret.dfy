/** Cookie-secret handling: padding a secret to whole base64 quanta, reading
    it as base64url or as literal bytes, and the AES key-size gate. */
module CookieSecret {
  import opened Wrappers
  import opened Base64Url

  /** addPadding: appends the `=` characters that bring the length of the
      secret to a multiple of four. */
  function AddPadding(secret: string): (r: string)
    ensures secret <= r
    ensures |r| % 4 == 0 && |r| - |secret| <= 3
    ensures forall i | |secret| <= i < |r| :: r[i] == Pad
  {
    var padding := |secret| % 4;
    if padding == 1 then secret + "==="
    else if padding == 2 then secret + "=="
    else if padding == 3 then secret + "="
    else secret
  }

  /** The padding is unique: any extension of `s` by at most three `=` that
      has a length that is a multiple of four is AddPadding(s). */
  lemma PaddingUnique(s: string, r: string)
    requires s <= r && |r| % 4 == 0 && |r| - |s| <= 3
    requires forall i | |s| <= i < |r| :: r[i] == Pad
    ensures r == AddPadding(s)
  {
    var p := AddPadding(s);
    assert |p| == |r|;
    assert forall i | 0 <= i < |r| :: r[i] == p[i];
  }

  /** Go's string(b): each byte becomes one character of the string. */
  function Chars(bytes: seq<Byte>): (s: string)
    ensures |s| == |bytes|
    ensures forall i | 0 <= i < |bytes| :: s[i] as int == bytes[i]
  {
    seq(|bytes|, i requires 0 <= i < |bytes| => bytes[i] as char)
  }

  /** secretBytes: the padded secret decoded as base64url and then padded
      again, as a string of bytes; the literal secret when it does not
      decode. */
  function SecretBytes(secret: string): (r: string)
    ensures r != secret ==> |r| % 4 == 0
    ensures Decode(AddPadding(secret)).None? ==> r == secret
    ensures Decode(AddPadding(secret)).Some? ==> r == AddPadding(Chars(Decode(AddPadding(secret)).value))
  {
    match Decode(AddPadding(secret))
    case Some(bytes) => AddPadding(Chars(bytes))
    case None => secret
  }

  /** The base64url encoding of any byte string is read back as those bytes,
      padded with `=` up to a multiple of four. */
  lemma SecretBytesOfEncoding(raw: seq<Byte>)
    ensures SecretBytes(Encode(raw)) == AddPadding(Chars(raw))
  {
    var e := Encode(raw);
    PaddingUnique(e, e);
    DecodeEncode(raw);
  }

  /** A secret typed as alphabet characters, four per quantum (a 16-character
      alphanumeric password, say), is read as base64: it is the encoding of
      three bytes per four characters, and those bytes, padded, are what the
      secret yields. */
  lemma SecretBytesOfText(secret: string)
    requires |secret| % 4 == 0
    requires forall i | 0 <= i < |secret| :: SextetValue(secret[i]).Some?
    ensures Decode(secret).Some?
    ensures var bytes := Decode(secret).value;
      Encode(bytes) == secret && 4 * |bytes| == 3 * |secret| &&
      SecretBytes(secret) == AddPadding(Chars(bytes))
  {
    EncodeDecode(secret);
    assert AddPadding(secret) == secret;
  }

  /** Encoding a 16, 24 or 32 byte key and reading it back as a cookie
      secret gives exactly the key. */
  lemma SecretBytesRoundTrip(raw: seq<Byte>)
    requires |raw| == 16 || |raw| == 24 || |raw| == 32
    ensures SecretBytes(Encode(raw)) == Chars(raw)
  {
    var c := Chars(raw);
    assert |c| % 4 == 0;
    assert AddPadding(c) == c;
    SecretBytesOfEncoding(raw);
  }

  /** The same holds when the encoding is given without its trailing `=`
      (the form of RFC 4648, section 3.2, that omits padding). */
  lemma SecretBytesUnpaddedRoundTrip(raw: seq<Byte>, unpadded: string)
    requires |raw| == 16 || |raw| == 24 || |raw| == 32
    requires unpadded <= Encode(raw) && |Encode(raw)| - |unpadded| <= 3
    requires forall i | |unpadded| <= i < |Encode(raw)| :: Encode(raw)[i] == Pad
    ensures SecretBytes(unpadded) == Chars(raw)
  {
    PaddingUnique(unpadded, Encode(raw));
    SecretBytesRoundTrip(raw);
  }

  /** A secret holding a character that is neither in the base64url
      alphabet nor `=` is used as it is. */
  lemma SecretBytesLiteral(secret: string, i: nat)
    requires i < |secret| && SextetValue(secret[i]).None? && secret[i] != Pad
    ensures SecretBytes(secret) == secret
  {
    var padded := AddPadding(secret);
    assert padded[i] == secret[i];
    DecodeRejectsForeign(padded, i);
  }

  /** The key sizes of AES-128, AES-192 and AES-256. */
  predicate ValidAESKeySize(n: nat)
  {
    n == 16 || n == 24 || n == 32
  }

  /** A string of 13 to 15, 21 to 23 or 29 to 31 characters is padded up
      to the next AES key size, and the padding adds something. */
  lemma PaddedToKeySize(c: string)
    requires 13 <= |c| <= 15 || 21 <= |c| <= 23 || 29 <= |c| <= 31
    ensures ValidAESKeySize(|AddPadding(c)|)
    ensures c < AddPadding(c)
  {
    var p := AddPadding(c);
    assert |c| % 4 != 0;
  }

  /** A decoded secret of 13 to 15, 21 to 23 or 29 to 31 bytes is padded
      with `=` up to the next AES key size and passes the size gate. */
  lemma RepaddedSecretPassesGate(raw: seq<Byte>)
    requires 13 <= |raw| <= 15 || 21 <= |raw| <= 23 || 29 <= |raw| <= 31
    ensures ValidAESKeySize(|SecretBytes(Encode(raw))|)
    ensures Chars(raw) < SecretBytes(Encode(raw))
  {
    SecretBytesOfEncoding(raw);
    PaddedToKeySize(Chars(raw));
  }
}
