/** Base64 as RFC 4648 defines it: the standard alphabet of section 4 and the
    URL- and filename-safe alphabet of section 5, with or without `=` padding,
    never wrapped into lines (Android's `Base64.NO_WRAP`). */
module Base64 {
  import opened Wrappers

  /** One octet, as an unsigned value. */
  type byte = b: int | 0 <= b < 256

  /** One 6-bit group, the value a single base64 character stands for. */
  type Sextet = v: int | 0 <= v < 64

  /** Section 4 (`+`, `/`) or section 5 (`-`, `_`) of RFC 4648. */
  datatype Alphabet = Standard | UrlSafe

  /** The character RFC 4648 assigns to value `v`; `SextetOf` inverts it. */
  function CharOf(a: Alphabet, v: Sextet): (c: char)
    ensures SextetOf(a, c) == Some(v)
    ensures c != '='
  {
    if v < 26 then ('A' as int + v) as char
    else if v < 52 then ('a' as int + (v - 26)) as char
    else if v < 62 then ('0' as int + (v - 52)) as char
    else if v == 62 then (if a == Standard then '+' else '-')
    else (if a == Standard then '/' else '_')
  }

  /** The value of an alphabet character; None for anything else, `=` included. */
  function SextetOf(a: Alphabet, c: char): Option<Sextet> {
    if 'A' <= c <= 'Z' then Some(c as int - 'A' as int)
    else if 'a' <= c <= 'z' then Some(c as int - 'a' as int + 26)
    else if '0' <= c <= '9' then Some(c as int - '0' as int + 52)
    else if c == (if a == Standard then '+' else '-') then Some(62)
    else if c == (if a == Standard then '/' else '_') then Some(63)
    else None
  }

  /** The characters of the section 5 alphabet: `A-Z`, `a-z`, `0-9`, `-`, `_`. */
  predicate IsUrlSafeChar(c: char) {
    ('A' <= c <= 'Z') || ('a' <= c <= 'z') || ('0' <= c <= '9') || c == '-' || c == '_'
  }

  /** Three octets become four characters (RFC 4648 section 4, figure 1). */
  function EncodeTriple(a: Alphabet, b0: byte, b1: byte, b2: byte): string {
    [CharOf(a, b0 / 4), CharOf(a, (b0 % 4) * 16 + b1 / 16),
     CharOf(a, (b1 % 16) * 4 + b2 / 64), CharOf(a, b2 % 64)]
  }

  /** A final quantum of two octets becomes three characters. */
  function EncodePair(a: Alphabet, b0: byte, b1: byte): string {
    [CharOf(a, b0 / 4), CharOf(a, (b0 % 4) * 16 + b1 / 16), CharOf(a, (b1 % 16) * 4)]
  }

  /** A final quantum of one octet becomes two characters. */
  function EncodeSingle(a: Alphabet, b0: byte): string {
    [CharOf(a, b0 / 4), CharOf(a, (b0 % 4) * 16)]
  }

  /** Android's `Base64.encodeToString(data, flags)` with `NO_WRAP`; `padded` is
      false exactly when `NO_PADDING` is among the flags. */
  function Encode(a: Alphabet, data: seq<byte>, padded: bool): string
    decreases |data|
  {
    if |data| >= 3 then EncodeTriple(a, data[0], data[1], data[2]) + Encode(a, data[3..], padded)
    else if |data| == 2 then EncodePair(a, data[0], data[1]) + (if padded then "=" else "")
    else if |data| == 1 then EncodeSingle(a, data[0]) + (if padded then "==" else "")
    else ""
  }

  /** The values of a run of alphabet characters; None as soon as one is not
      in the alphabet. */
  function Sextets(a: Alphabet, s: string): (r: Option<seq<Sextet>>)
    ensures r.Some? ==> |r.value| == |s|
  {
    if s == [] then Some([])
    else
      match SextetOf(a, s[0])
      case None => None
      case Some(v) =>
        match Sextets(a, s[1..])
        case None => None
        case Some(rest) => Some([v] + rest)
  }

  /** Two to four 6-bit groups repacked into one to three octets, high bits
      first; bits left over past the last whole octet are dropped. */
  function Octets(v: seq<Sextet>): (r: seq<byte>)
    requires 2 <= |v| <= 4
    ensures |r| == |v| - 1
  {
    var v0: int, v1: int := v[0], v[1];
    var b0: byte := v0 * 4 + v1 / 16;
    if |v| == 2 then [b0]
    else
      var v2: int := v[2];
      var b1: byte := (v1 % 16) * 16 + v2 / 4;
      if |v| == 3 then [b0, b1]
      else [b0, b1, (v2 % 4) * 64 + v[3]]
  }

  /** Two to four alphabet characters back to one to three octets. */
  function DecodeChars(a: Alphabet, s: string): Option<seq<byte>>
    requires |s| <= 4
  {
    if |s| < 2 then None
    else
      match Sextets(a, s)
      case None => None
      case Some(v) => Some(Octets(v))
  }

  /** Characters written by `CharOf` read back as the values they encode. */
  lemma {:induction false} SextetsOfChars(a: Alphabet, vs: seq<Sextet>, s: string)
    requires |s| == |vs|
    requires forall i :: 0 <= i < |s| ==> s[i] == CharOf(a, vs[i])
    ensures Sextets(a, s) == Some(vs)
  {
    if s != [] {
      SextetsOfChars(a, vs[1..], s[1..]);
      assert vs == [vs[0]] + vs[1..];
    }
  }

  /** The last quantum, with its padding (`xx==`, `xxx=`) or without it. */
  function DecodeLast(a: Alphabet, s: string): Option<seq<byte>>
    requires 1 <= |s| <= 4
  {
    if |s| == 4 && s[2] == '=' && s[3] == '=' then DecodeChars(a, s[..2])
    else if |s| == 4 && s[3] == '=' then DecodeChars(a, s[..3])
    else DecodeChars(a, s)
  }

  /** Decoding: None for a character outside the alphabet, misplaced padding
      or a dangling single character. Padding may be present or absent. */
  function Decode(a: Alphabet, s: string): Option<seq<byte>>
    decreases |s|
  {
    if |s| == 0 then Some([])
    else if |s| <= 4 then DecodeLast(a, s)
    else
      match DecodeChars(a, s[..4])
      case None => None
      case Some(head) =>
        match Decode(a, s[4..])
        case None => None
        case Some(tail) => Some(head + tail)
  }

  lemma {:induction false} TripleRoundTrip(a: Alphabet, b0: byte, b1: byte, b2: byte)
    ensures DecodeChars(a, EncodeTriple(a, b0, b1, b2)) == Some([b0, b1, b2])
  {
    var v0: Sextet, v1: Sextet := b0 / 4, (b0 % 4) * 16 + b1 / 16;
    var v2: Sextet, v3: Sextet := (b1 % 16) * 4 + b2 / 64, b2 % 64;
    var vs := [v0, v1, v2, v3];
    SextetsOfChars(a, vs, EncodeTriple(a, b0, b1, b2));
    assert v1 / 16 == b0 % 4 && v1 % 16 == b1 / 16;
    assert v2 / 4 == b1 % 16 && v2 % 4 == b2 / 64;
    assert Octets(vs) == [b0, b1, b2];
  }

  lemma {:induction false} PairRoundTrip(a: Alphabet, b0: byte, b1: byte)
    ensures DecodeChars(a, EncodePair(a, b0, b1)) == Some([b0, b1])
  {
    var v0: Sextet, v1: Sextet := b0 / 4, (b0 % 4) * 16 + b1 / 16;
    var v2: Sextet := (b1 % 16) * 4;
    var vs := [v0, v1, v2];
    SextetsOfChars(a, vs, EncodePair(a, b0, b1));
    assert v1 / 16 == b0 % 4 && v1 % 16 == b1 / 16;
    assert v2 / 4 == b1 % 16;
    assert Octets(vs) == [b0, b1];
  }

  lemma {:induction false} SingleRoundTrip(a: Alphabet, b0: byte)
    ensures DecodeChars(a, EncodeSingle(a, b0)) == Some([b0])
  {
    var v0: Sextet, v1: Sextet := b0 / 4, (b0 % 4) * 16;
    var vs := [v0, v1];
    SextetsOfChars(a, vs, EncodeSingle(a, b0));
    assert v1 / 16 == b0 % 4;
  }

  /** Decoding inverts encoding, for either alphabet, padded or not. */
  lemma {:induction false} DecodeEncode(a: Alphabet, data: seq<byte>, padded: bool)
    ensures Decode(a, Encode(a, data, padded)) == Some(data)
    decreases |data|
  {
    if |data| > 3 {
      DecodeEncode(a, data[3..], padded);
      DecodeEncodeStep(a, data, padded);
    } else if |data| > 0 {
      DecodeEncodeLast(a, data, padded);
    }
  }

  /** A leading whole quantum decodes to its three octets, ahead of whatever
      the rest decodes to. */
  lemma {:induction false} DecodeEncodeStep(a: Alphabet, data: seq<byte>, padded: bool)
    requires |data| > 3
    requires Decode(a, Encode(a, data[3..], padded)) == Some(data[3..])
    ensures Decode(a, Encode(a, data, padded)) == Some(data)
  {
    var s := Encode(a, data, padded);
    var head := EncodeTriple(a, data[0], data[1], data[2]);
    var rest := Encode(a, data[3..], padded);
    TripleRoundTrip(a, data[0], data[1], data[2]);
    EncodedLength(a, data[3..], padded);
    assert s[..4] == head && s[4..] == rest;
    assert data == [data[0], data[1], data[2]] + data[3..];
  }

  /** The final one, two or three octets, padded or not. */
  lemma {:induction false} DecodeEncodeLast(a: Alphabet, data: seq<byte>, padded: bool)
    requires 1 <= |data| <= 3
    ensures Decode(a, Encode(a, data, padded)) == Some(data)
  {
    var s := Encode(a, data, padded);
    if |data| == 3 {
      var head := EncodeTriple(a, data[0], data[1], data[2]);
      TripleRoundTrip(a, data[0], data[1], data[2]);
      assert data[3..] == [];
      assert s == head && head[2] != '=' && head[3] != '=';
      assert data == [data[0], data[1], data[2]];
    } else if |data| == 2 {
      var q := EncodePair(a, data[0], data[1]);
      PairRoundTrip(a, data[0], data[1]);
      assert s[..3] == q && q[2] != '=';
      assert data == [data[0], data[1]];
      if !padded {
        assert s == q;
      }
    } else {
      var q := EncodeSingle(a, data[0]);
      SingleRoundTrip(a, data[0]);
      assert s[..2] == q;
      assert data == [data[0]];
      if !padded {
        assert s == q;
      }
    }
  }

  /** Unpadded, `n` octets take `ceil(4n/3)` characters; padded, `4 * ceil(n/3)`. */
  lemma {:induction false} EncodedLength(a: Alphabet, data: seq<byte>, padded: bool)
    ensures !padded ==> |Encode(a, data, padded)| == (4 * |data| + 2) / 3
    ensures padded ==> |Encode(a, data, padded)| == 4 * ((|data| + 2) / 3)
    decreases |data|
  {
    if |data| >= 3 {
      EncodedLength(a, data[3..], padded);
      assert |Encode(a, data, padded)| == 4 + |Encode(a, data[3..], padded)|;
      LengthStep(|data|);
    }
  }

  /** Three more octets take four more characters, padded or not. */
  lemma LengthStep(n: int)
    requires n >= 3
    ensures (4 * n + 2) / 3 == (4 * (n - 3) + 2) / 3 + 4
    ensures 4 * ((n + 2) / 3) == 4 * ((n - 3 + 2) / 3) + 4
  {
  }

  /** Every character of `s` is in the alphabet, or is padding where padding
      is written. */
  predicate InAlphabet(a: Alphabet, s: string, padded: bool) {
    forall i :: 0 <= i < |s| ==> SextetOf(a, s[i]).Some? || (padded && s[i] == '=')
  }

  /** Encoding writes alphabet characters only, plus `=` when padding. */
  lemma {:induction false} EncodeInAlphabet(a: Alphabet, data: seq<byte>, padded: bool)
    ensures InAlphabet(a, Encode(a, data, padded), padded)
    decreases |data|
  {
    var s := Encode(a, data, padded);
    if |data| >= 3 {
      EncodeInAlphabet(a, data[3..], padded);
      var head := EncodeTriple(a, data[0], data[1], data[2]);
      var rest := Encode(a, data[3..], padded);
      assert s == head + rest;
      forall i | 0 <= i < |s|
        ensures SextetOf(a, s[i]).Some? || (padded && s[i] == '=')
      {
        if i >= 4 {
          assert s[i] == rest[i - 4];
        }
      }
    }
  }

  /** The section 5 alphabet without padding only ever produces `A-Z`, `a-z`,
      `0-9`, `-` and `_`: never `+`, `/`, `=` or a line break. */
  lemma {:induction false} UrlSafeUnpaddedChars(data: seq<byte>)
    ensures forall i :: 0 <= i < |Encode(UrlSafe, data, false)| ==> IsUrlSafeChar(Encode(UrlSafe, data, false)[i])
  {
    var s := Encode(UrlSafe, data, false);
    EncodeInAlphabet(UrlSafe, data, false);
    forall i | 0 <= i < |s|
      ensures IsUrlSafeChar(s[i])
    {
      assert SextetOf(UrlSafe, s[i]).Some?;
    }
  }

  /** No alphabet ever produces a line feed: `NO_WRAP` output has no line
      breaks to strip. */
  lemma {:induction false} EncodeHasNoLineFeed(a: Alphabet, data: seq<byte>, padded: bool)
    ensures '\n' !in Encode(a, data, padded)
  {
    var s := Encode(a, data, padded);
    EncodeInAlphabet(a, data, padded);
    forall i | 0 <= i < |s|
      ensures s[i] != '\n'
    {
      assert SextetOf(a, s[i]).Some? || s[i] == '=';
    }
  }
}
