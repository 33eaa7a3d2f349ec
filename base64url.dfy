/** The URL-safe base64 alphabet of RFC 4648, section 5, with the `=` padding
    of section 3.2, as Go's `base64.URLEncoding` decodes it: input is read in
    quanta of four characters; only the last quantum may end in `=` or `==`;
    the unused low bits of the last character are not checked (the encoding
    is not in strict mode). */
module Base64Url {
  import opened Wrappers

  type Byte = b: int | 0 <= b < 256
  type Sextet = v: int | 0 <= v < 64

  const Pad: char := '='

  /** The alphabet character for the six-bit value `v`. */
  function SextetChar(v: Sextet): (c: char)
    ensures SextetValue(c) == Some(v)
    ensures c != Pad
  {
    if v < 26 then ('A' as int + v) as char
    else if v < 52 then ('a' as int + (v - 26)) as char
    else if v < 62 then ('0' as int + (v - 52)) as char
    else if v == 62 then '-'
    else '_'
  }

  /** The six-bit value of an alphabet character; None for every other
      character, the pad included. */
  function SextetValue(c: char): Option<Sextet>
  {
    if 'A' <= c <= 'Z' then Some(c as int - 'A' as int)
    else if 'a' <= c <= 'z' then Some(c as int - 'a' as int + 26)
    else if '0' <= c <= '9' then Some(c as int - '0' as int + 52)
    else if c == '-' then Some(62)
    else if c == '_' then Some(63)
    else None
  }

  /** The three bytes carried by four alphabet characters, high bits first. */
  function Bytes3(a: Sextet, b: Sextet, c: Sextet, d: Sextet): seq<Byte>
  {
    [a * 4 + b / 16, (b % 16) * 16 + c / 4, (c % 4) * 64 + d]
  }

  /** True when all four characters of a quantum are in the alphabet. */
  predicate FullQuantum(q: string)
    requires |q| == 4
  {
    SextetValue(q[0]).Some? && SextetValue(q[1]).Some? &&
    SextetValue(q[2]).Some? && SextetValue(q[3]).Some?
  }

  /** The bytes of a quantum that ends in padding (`xx==` or `xxx=`); None
      for every other padding pattern. */
  function DecodePadded(q: string): (r: Option<seq<Byte>>)
    requires |q| == 4
    ensures r.Some? ==> 1 <= |r.value| <= 2
  {
    var a, b, c := SextetValue(q[0]), SextetValue(q[1]), SextetValue(q[2]);
    if a.None? || b.None? || q[3] != Pad then None
    else if c.Some? then Some(Bytes3(a.value, b.value, c.value, 0)[..2])
    else if q[2] == Pad then Some(Bytes3(a.value, b.value, 0, 0)[..1])
    else None
  }

  /** Decodes padded base64url text; None where Go reports a
      CorruptInputError (a character outside the alphabet, padding anywhere
      but at the end of the last quantum, or an incomplete quantum). */
  function Decode(s: string): (r: Option<seq<Byte>>)
    ensures r.Some? ==> |s| == 4 * ((|r.value| + 2) / 3)
    decreases |s|
  {
    if s == [] then Some([])
    else if |s| < 4 then None
    else if FullQuantum(s[..4]) then
      match Decode(s[4..])
      case None => None
      case Some(rest) =>
        var group := Bytes3(SextetValue(s[0]).value, SextetValue(s[1]).value,
                            SextetValue(s[2]).value, SextetValue(s[3]).value);
        assert (|group + rest| + 2) / 3 == (|rest| + 2) / 3 + 1;
        Some(group + rest)
    else if |s| == 4 then DecodePadded(s)
    else None
  }

  /** The four characters that encode the bytes `x`, `y`, `z`. */
  function Quad(x: Byte, y: Byte, z: Byte): string
  {
    [SextetChar(x / 4), SextetChar((x % 4) * 16 + y / 16),
     SextetChar((y % 16) * 4 + z / 64), SextetChar(z % 64)]
  }

  /** Padded base64url encoding of `bytes`: whole groups of three bytes
      become four characters; a last group of two or one byte is padded
      with one or two `=`. */
  function Encode(bytes: seq<Byte>): (s: string)
    ensures |s| == 4 * ((|bytes| + 2) / 3)
    decreases |bytes|
  {
    if |bytes| == 0 then ""
    else if |bytes| == 1 then Quad(bytes[0], 0, 0)[..2] + [Pad, Pad]
    else if |bytes| == 2 then Quad(bytes[0], bytes[1], 0)[..3] + [Pad]
    else Quad(bytes[0], bytes[1], bytes[2]) + Encode(bytes[3..])
  }

  /** Splitting a group of three bytes into four six-bit values and joining
      them back gives the same bytes. */
  lemma RegroupBytes(x: Byte, y: Byte, z: Byte)
    ensures Bytes3(x / 4, (x % 4) * 16 + y / 16, (y % 16) * 4 + z / 64, z % 64) == [x, y, z]
  {
    assert ((x % 4) * 16 + y / 16) / 16 == x % 4;
    assert ((x % 4) * 16 + y / 16) % 16 == y / 16;
    assert ((y % 16) * 4 + z / 64) / 4 == y % 16;
    assert ((y % 16) * 4 + z / 64) % 4 == z / 64;
  }

  /** A full quantum in front of more text decodes to its three bytes in
      front of whatever the rest decodes to. */
  lemma DecodeQuad(x: Byte, y: Byte, z: Byte, rest: string)
    ensures Decode(Quad(x, y, z) + rest) ==
      match Decode(rest)
      case None => None
      case Some(r) => Some([x, y, z] + r)
  {
    var s := Quad(x, y, z) + rest;
    RegroupBytes(x, y, z);
    var a, b, c, d := x / 4, (x % 4) * 16 + y / 16, (y % 16) * 4 + z / 64, z % 64;
    assert s[..4] == Quad(x, y, z) == [SextetChar(a), SextetChar(b), SextetChar(c), SextetChar(d)];
    assert SextetValue(s[0]) == Some(a);
    assert SextetValue(s[1]) == Some(b);
    assert SextetValue(s[2]) == Some(c);
    assert SextetValue(s[3]) == Some(d);
    assert FullQuantum(s[..4]);
    assert s[4..] == rest;
  }

  /** A last group of one byte round-trips through its `xx==` quantum. */
  lemma DecodeEncodeOne(x: Byte)
    ensures Decode(Encode([x])) == Some([x])
  {
    RegroupBytes(x, 0, 0);
    var s := Encode([x]);
    var a, b := x / 4, (x % 4) * 16;
    assert s == [SextetChar(a), SextetChar(b), Pad, Pad];
    assert SextetValue(s[0]) == Some(a);
    assert SextetValue(s[1]) == Some(b);
    assert SextetValue(s[2]) == None;
    assert !FullQuantum(s[..4]);
    assert s[..4] == s;
    assert DecodePadded(s) == Some(Bytes3(a, b, 0, 0)[..1]);
    assert Bytes3(a, b, 0, 0)[..1] == [x];
    assert Decode(s) == DecodePadded(s);
  }

  /** A last group of two bytes round-trips through its `xxx=` quantum. */
  lemma DecodeEncodeTwo(x: Byte, y: Byte)
    ensures Decode(Encode([x, y])) == Some([x, y])
  {
    RegroupBytes(x, y, 0);
    var s := Encode([x, y]);
    var a, b, c := x / 4, (x % 4) * 16 + y / 16, (y % 16) * 4;
    assert s == [SextetChar(a), SextetChar(b), SextetChar(c), Pad];
    assert SextetValue(s[0]) == Some(a);
    assert SextetValue(s[1]) == Some(b);
    assert SextetValue(s[2]) == Some(c);
    assert SextetValue(s[3]) == None;
    assert !FullQuantum(s[..4]);
    assert s[..4] == s;
    assert DecodePadded(s) == Some(Bytes3(a, b, c, 0)[..2]);
    assert Bytes3(a, b, c, 0)[..2] == [x, y];
    assert Decode(s) == DecodePadded(s);
  }

  /** A sequence of three or more bytes is its first group and the rest. */
  lemma FirstGroup(bytes: seq<Byte>)
    requires |bytes| > 2
    ensures bytes == [bytes[0], bytes[1], bytes[2]] + bytes[3..]
  {
  }

  /** If the bytes after the first group round-trip, so do all of them. */
  lemma DecodeEncodeStep(bytes: seq<Byte>)
    requires |bytes| > 2
    requires Decode(Encode(bytes[3..])) == Some(bytes[3..])
    ensures Decode(Encode(bytes)) == Some(bytes)
  {
    var rest := bytes[3..];
    var group, tail := Quad(bytes[0], bytes[1], bytes[2]), Encode(rest);
    assert Encode(bytes) == group + tail;
    DecodeQuad(bytes[0], bytes[1], bytes[2], tail);
    assert Decode(group + tail) == Some([bytes[0], bytes[1], bytes[2]] + rest);
    FirstGroup(bytes);
  }

  /** Decoding an encoding gives back the bytes. */
  lemma {:induction false} DecodeEncode(bytes: seq<Byte>)
    ensures Decode(Encode(bytes)) == Some(bytes)
    decreases |bytes|
  {
    if |bytes| > 2 {
      DecodeEncode(bytes[3..]);
      DecodeEncodeStep(bytes);
    } else if |bytes| == 2 {
      DecodeEncodeTwo(bytes[0], bytes[1]);
      assert bytes == [bytes[0], bytes[1]];
    } else if |bytes| == 1 {
      DecodeEncodeOne(bytes[0]);
      assert bytes == [bytes[0]];
    }
  }

  /** An alphabet character is the character of its own six-bit value. */
  lemma SextetCharOfValue(c: char)
    requires SextetValue(c).Some?
    ensures SextetChar(SextetValue(c).value) == c
  {
    var v := SextetValue(c).value;
    if 'A' <= c <= 'Z' {
      assert v < 26 && ('A' as int + v) as char == c;
    } else if 'a' <= c <= 'z' {
      assert 26 <= v < 52 && ('a' as int + (v - 26)) as char == c;
    } else if '0' <= c <= '9' {
      assert 52 <= v < 62 && ('0' as int + (v - 52)) as char == c;
    }
  }

  /** Joining four six-bit values into three bytes and splitting them again
      gives the same values. */
  lemma RegroupSextets(a: Sextet, b: Sextet, c: Sextet, d: Sextet)
    ensures var g := Bytes3(a, b, c, d);
      g[0] / 4 == a && (g[0] % 4) * 16 + g[1] / 16 == b &&
      (g[1] % 16) * 4 + g[2] / 64 == c && g[2] % 64 == d
  {
    var x, y, z := a * 4 + b / 16, (b % 16) * 16 + c / 4, (c % 4) * 64 + d;
    assert x / 4 == a && x % 4 == b / 16;
    assert y / 16 == b % 16 && y % 16 == c / 4;
    assert z / 64 == c % 4 && z % 64 == d;
  }

  /** A full quantum is the encoding of the three bytes it decodes to. */
  lemma QuadOfQuantum(q: string)
    requires |q| == 4 && FullQuantum(q)
    ensures var g := Bytes3(SextetValue(q[0]).value, SextetValue(q[1]).value,
                            SextetValue(q[2]).value, SextetValue(q[3]).value);
      Quad(g[0], g[1], g[2]) == q
  {
    var a, b, c, d := SextetValue(q[0]).value, SextetValue(q[1]).value,
                      SextetValue(q[2]).value, SextetValue(q[3]).value;
    RegroupSextets(a, b, c, d);
    SextetCharOfValue(q[0]);
    SextetCharOfValue(q[1]);
    SextetCharOfValue(q[2]);
    SextetCharOfValue(q[3]);
  }

  /** Text made only of alphabet characters, four per quantum, always
      decodes, to three bytes per quantum, and encoding what it decodes to
      gives the text back: every such text is the canonical encoding of its
      bytes. */
  lemma {:induction false} EncodeDecode(s: string)
    requires |s| % 4 == 0
    requires forall i | 0 <= i < |s| :: SextetValue(s[i]).Some?
    ensures Decode(s).Some? && Encode(Decode(s).value) == s
    ensures 4 * |Decode(s).value| == 3 * |s|
    decreases |s|
  {
    if s != [] {
      var q, rest := s[..4], s[4..];
      assert FullQuantum(q) by {
        assert q[0] == s[0] && q[1] == s[1] && q[2] == s[2] && q[3] == s[3];
      }
      assert forall i | 0 <= i < |rest| :: SextetValue(rest[i]).Some? by {
        forall i | 0 <= i < |rest| ensures SextetValue(rest[i]).Some? {
          assert rest[i] == s[i + 4];
        }
      }
      EncodeDecode(rest);
      var g := Bytes3(SextetValue(s[0]).value, SextetValue(s[1]).value,
                      SextetValue(s[2]).value, SextetValue(s[3]).value);
      var tail := Decode(rest).value;
      assert Decode(s) == Some(g + tail) && |g + tail| == 3 + |tail|;
      QuadOfQuantum(q);
      var bytes := g + tail;
      assert bytes[3..] == tail;
      assert Encode(bytes) == Quad(g[0], g[1], g[2]) + Encode(tail);
      assert q + rest == s;
    }
  }

  /** Any character that is neither in the alphabet nor the pad makes the
      whole text undecodable. */
  lemma {:induction false} DecodeRejectsForeign(s: string, i: nat)
    requires i < |s| && SextetValue(s[i]).None? && s[i] != Pad
    ensures Decode(s).None?
    decreases |s|
  {
    if |s| >= 4 && i >= 4 {
      DecodeRejectsForeign(s[4..], i - 4);
    }
  }
}
