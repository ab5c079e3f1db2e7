/** The OAuth constants and the two PKCE / CSRF encoders of `OAuthConfig`.
    SecureRandom and SHA-256 are platform services: the random octets and
    the digest function are parameters. */
module OAuthConfig {
  import opened Wrappers
  import opened Base64

  const REDIRECT_URI_HTTPS: string := "https://madebycarson.com/gitjot-oauth/callback"
  const REDIRECT_URI_APP: string := "notetaker://callback"
  const APP_INSTALL_URL: string := "https://github.com/apps/gitjot-oauth/installations/select_target"
  const AUTHORIZE_URL: string := "https://github.com/login/oauth/authorize"
  const TOKEN_URL: string := "https://github.com/login/oauth/access_token"

  /** `ByteArray(32)` for the verifier, `ByteArray(16)` for the state. */
  const VERIFIER_BYTES: nat := 32
  const STATE_BYTES: nat := 16

  // ---------------------------------------------------------------- state

  predicate IsLowerHexDigit(c: char) {
    ('0' <= c <= '9') || ('a' <= c <= 'f')
  }

  function HexDigit(v: int): (c: char)
    requires 0 <= v < 16
    ensures IsLowerHexDigit(c)
    ensures HexValue(c) == v
  {
    "0123456789abcdef"[v]
  }

  /** The value of a lower-case hex digit. */
  function HexValue(c: char): int
    requires IsLowerHexDigit(c)
  {
    if c <= '9' then c as int - '0' as int else c as int - 'a' as int + 10
  }

  /** `"%02x".format(b)`: two lower-case digits, high nibble first. Java's
      formatter prints a negative Kotlin `Byte` as its unsigned value, which
      is the octet modelled here. */
  function HexOfByte(b: byte): string {
    [HexDigit(b / 16), HexDigit(b % 16)]
  }

  /** `joinToString("") { "%02x".format(it) }`. */
  function HexString(bytes: seq<byte>): (s: string)
    ensures |s| == 2 * |bytes|
    ensures forall i :: 0 <= i < |s| ==> IsLowerHexDigit(s[i])
  {
    if bytes == [] then "" else HexOfByte(bytes[0]) + HexString(bytes[1..])
  }

  /** Reading the hex back: None unless the text is pairs of lower-case digits. */
  function DecodeHex(s: string): Option<seq<byte>>
    decreases |s|
  {
    if s == [] then Some([])
    else if |s| < 2 || !IsLowerHexDigit(s[0]) || !IsLowerHexDigit(s[1]) then None
    else
      match DecodeHex(s[2..])
      case None => None
      case Some(rest) => Some([(HexValue(s[0]) * 16 + HexValue(s[1])) as byte] + rest)
  }

  /** `generateState()`, given the 16 random octets it draws. */
  function GenerateState(random: seq<byte>): (state: string)
    requires |random| == STATE_BYTES
    ensures |state| == 32
    ensures forall i :: 0 <= i < |state| ==> IsLowerHexDigit(state[i])
  {
    HexString(random)
  }

  /** The state string determines the random octets it was made from. */
  lemma {:induction false} DecodeHexString(bytes: seq<byte>)
    ensures DecodeHex(HexString(bytes)) == Some(bytes)
  {
    if bytes != [] {
      var s := HexString(bytes);
      assert s[2..] == HexString(bytes[1..]);
      DecodeHexString(bytes[1..]);
      assert bytes == [bytes[0]] + bytes[1..];
    }
  }

  lemma StateRoundTrip(random: seq<byte>)
    requires |random| == STATE_BYTES
    ensures DecodeHex(GenerateState(random)) == Some(random)
  {
    DecodeHexString(random);
  }

  // ----------------------------------------------------------------- PKCE

  /** The characters RFC 7636 section 4.1 allows in a code verifier:
      `[A-Z] / [a-z] / [0-9] / "-" / "." / "_" / "~"`. */
  predicate IsUnreservedChar(c: char) {
    IsUrlSafeChar(c) || c == '.' || c == '~'
  }

  /** `generateCodeVerifier()`, given the 32 random octets it draws:
      URL-safe base64, no padding, no wrapping. */
  function GenerateCodeVerifier(random: seq<byte>): (verifier: string)
    requires |random| == VERIFIER_BYTES
    ensures |verifier| == 43
    ensures forall i :: 0 <= i < |verifier| ==> IsUrlSafeChar(verifier[i])
  {
    EncodedLength(UrlSafe, random, false);
    UrlSafeUnpaddedChars(random);
    Encode(UrlSafe, random, false)
  }

  /** The verifier meets RFC 7636 section 4.1: 43 to 128 unreserved characters. */
  lemma VerifierWellFormed(random: seq<byte>)
    requires |random| == VERIFIER_BYTES
    ensures 43 <= |GenerateCodeVerifier(random)| <= 128
    ensures forall i :: 0 <= i < |GenerateCodeVerifier(random)| ==> IsUnreservedChar(GenerateCodeVerifier(random)[i])
  {
  }

  /** The verifier carries all 256 bits of the random octets it came from. */
  lemma VerifierRoundTrip(random: seq<byte>)
    requires |random| == VERIFIER_BYTES
    ensures Decode(UrlSafe, GenerateCodeVerifier(random)) == Some(random)
  {
    DecodeEncode(UrlSafe, random, false);
  }

  /** `toByteArray(Charsets.US_ASCII)`: a character above 127 cannot be
      encoded and becomes `?` (63), as Java's encoder does. */
  function AsciiBytes(s: string): (bytes: seq<byte>)
    ensures |bytes| == |s|
    ensures forall i :: 0 <= i < |s| && s[i] as int < 128 ==> bytes[i] == s[i] as int
  {
    if s == [] then []
    else [if s[0] as int < 128 then s[0] as int else 63] + AsciiBytes(s[1..])
  }

  /** `generateCodeChallenge(verifier)`: `BASE64URL(SHA256(ASCII(verifier)))`,
      the S256 method of RFC 7636 section 4.2. */
  function GenerateCodeChallenge(verifier: string, sha256: seq<byte> -> seq<byte>): string {
    Encode(UrlSafe, sha256(AsciiBytes(verifier)), false)
  }

  /** Every verifier character is ASCII, so the challenge hashes the
      verifier's own characters, and a 32-octet digest gives 43 URL-safe
      characters with no `=`. Decoding the challenge yields the digest. */
  lemma ChallengeWellFormed(random: seq<byte>, sha256: seq<byte> -> seq<byte>)
    requires |random| == VERIFIER_BYTES
    requires forall m :: |sha256(m)| == 32
    ensures var v := GenerateCodeVerifier(random);
      forall i :: 0 <= i < |v| ==> AsciiBytes(v)[i] == v[i] as int
    ensures var c := GenerateCodeChallenge(GenerateCodeVerifier(random), sha256);
      |c| == 43 && '=' !in c && forall i :: 0 <= i < |c| ==> IsUrlSafeChar(c[i])
    ensures var v := GenerateCodeVerifier(random);
      Decode(UrlSafe, GenerateCodeChallenge(v, sha256)) == Some(sha256(AsciiBytes(v)))
  {
    var v := GenerateCodeVerifier(random);
    var digest := sha256(AsciiBytes(v));
    EncodedLength(UrlSafe, digest, false);
    UrlSafeUnpaddedChars(digest);
    DecodeEncode(UrlSafe, digest, false);
  }
}
