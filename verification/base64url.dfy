/** Unpadded URL-safe base64 (Go's `base64.RawURLEncoding`, the "base64url"
    alphabet of section 5 of RFC 4648, without the `=` padding), as used for
    the PKCE values and the OAuth state. */
module Base64Url {
  import opened Wrappers

  type Byte = b: int | 0 <= b < 256
  type Sextet = v: int | 0 <= v < 64

  /** The 64 characters of the alphabet. */
  predicate IsUrlChar(c: char) {
    ('A' <= c <= 'Z') || ('a' <= c <= 'z') || ('0' <= c <= '9') || c == '-' || c == '_'
  }

  predicate AllUrlChars(s: string) {
    forall i :: 0 <= i < |s| ==> IsUrlChar(s[i])
  }

  function CharOf(v: Sextet): (c: char)
    ensures IsUrlChar(c)
  {
    if v < 26 then 'A' + (v as char)
    else if v < 52 then 'a' + ((v - 26) as char)
    else if v < 62 then '0' + ((v - 52) as char)
    else if v == 62 then '-'
    else '_'
  }

  /** The value of an alphabet character; `None` outside the alphabet. */
  function ValueOf(c: char): (v: Option<Sextet>)
    ensures v.Some? <==> IsUrlChar(c)
  {
    if 'A' <= c <= 'Z' then Some((c - 'A') as int)
    else if 'a' <= c <= 'z' then Some((c - 'a') as int + 26)
    else if '0' <= c <= '9' then Some((c - '0') as int + 52)
    else if c == '-' then Some(62)
    else if c == '_' then Some(63)
    else None
  }

  lemma ValueOfCharOf(v: Sextet)
    ensures ValueOf(CharOf(v)) == Some(v)
  {
  }

  /** The encoded length of `n` bytes: four characters per three bytes, and
      two or three characters for a final group of one or two bytes. */
  function EncodedLen(n: nat): (k: nat)
    ensures n <= k
    ensures k == (8 * n + 5) / 6
  {
    4 * (n / 3) + (if n % 3 == 0 then 0 else n % 3 + 1)
  }

  /** The characters of one group of one to three bytes. */
  function EncodeGroup(g: seq<Byte>): (s: string)
    requires 1 <= |g| <= 3
    ensures |s| == |g| + 1
    ensures AllUrlChars(s)
  {
    var c0 := CharOf(g[0] / 4);
    if |g| == 1 then [c0, CharOf((g[0] % 4) * 16)]
    else
      var c1 := CharOf((g[0] % 4) * 16 + g[1] / 16);
      if |g| == 2 then [c0, c1, CharOf((g[1] % 16) * 4)]
      else [c0, c1, CharOf((g[1] % 16) * 4 + g[2] / 64), CharOf(g[2] % 64)]
  }

  /** `RawURLEncoding.EncodeToString`. */
  function Encode(b: seq<Byte>): (s: string)
    ensures |s| == EncodedLen(|b|)
    ensures AllUrlChars(s)
    decreases |b|
  {
    if |b| == 0 then ""
    else if |b| <= 3 then EncodeGroup(b)
    else EncodeGroup(b[..3]) + Encode(b[3..])
  }

  /** The bytes of one group of two to four characters; `None` when a character
      is outside the alphabet or the unused low bits of the last one are set. */
  function DecodeGroup(s: string): Option<seq<Byte>>
    requires 2 <= |s| <= 4
  {
    if exists i :: 0 <= i < |s| && !IsUrlChar(s[i]) then None
    else
      var v0 := ValueOf(s[0]).value;
      var v1 := ValueOf(s[1]).value;
      var b0: Byte := v0 * 4 + v1 / 16;
      if |s| == 2 then (if v1 % 16 == 0 then Some([b0]) else None)
      else
        var v2 := ValueOf(s[2]).value;
        var b1: Byte := (v1 % 16) * 16 + v2 / 4;
        if |s| == 3 then (if v2 % 4 == 0 then Some([b0, b1]) else None)
        else
          Some(JoinSextets(v0, v1, v2, ValueOf(s[3]).value))
  }

  /** The three bytes that four sextets spell. */
  function JoinSextets(v0: Sextet, v1: Sextet, v2: Sextet, v3: Sextet): seq<Byte> {
    [v0 * 4 + v1 / 16, (v1 % 16) * 16 + v2 / 4, (v2 % 4) * 64 + v3]
  }

  /** The decoder, the encoder's reference partner: `None` for text that no
      byte sequence encodes to. */
  function Decode(s: string): Option<seq<Byte>>
    decreases |s|
  {
    if |s| == 0 then Some([])
    else if |s| == 1 then None
    else if |s| <= 4 then DecodeGroup(s)
    else match DecodeGroup(s[..4])
      case None => None
      case Some(g) => match Decode(s[4..])
        case None => None
        case Some(rest) => Some(g + rest)
  }

  lemma SplitBy16(hi: nat, lo: nat)
    requires lo < 16
    ensures (hi * 16 + lo) / 16 == hi && (hi * 16 + lo) % 16 == lo
  {
  }

  lemma SplitBy4(hi: nat, lo: nat)
    requires lo < 4
    ensures (hi * 4 + lo) / 4 == hi && (hi * 4 + lo) % 4 == lo
  {
  }

  lemma DecodeEncodeOne(g: seq<Byte>)
    requires |g| == 1
    ensures DecodeGroup(EncodeGroup(g)) == Some(g)
  {
    var s := EncodeGroup(g);
    var v1 := (g[0] % 4) * 16;
    ValueOfCharOf(g[0] / 4);
    ValueOfCharOf(v1);
    assert s == [CharOf(g[0] / 4), CharOf(v1)];
    assert forall i :: 0 <= i < |s| ==> IsUrlChar(s[i]);
    SplitBy16(g[0] % 4, 0);
    assert v1 / 16 == g[0] % 4 && v1 % 16 == 0;
    assert (g[0] / 4) * 4 + v1 / 16 == g[0];
    assert DecodeGroup(s) == Some([g[0]]);
    assert [g[0]] == g;
  }

  lemma DecodeEncodeTwo(g: seq<Byte>)
    requires |g| == 2
    ensures DecodeGroup(EncodeGroup(g)) == Some(g)
  {
    var s := EncodeGroup(g);
    var v1 := (g[0] % 4) * 16 + g[1] / 16;
    var v2 := (g[1] % 16) * 4;
    ValueOfCharOf(g[0] / 4);
    ValueOfCharOf(v1);
    ValueOfCharOf(v2);
    assert s == [CharOf(g[0] / 4), CharOf(v1), CharOf(v2)];
    assert forall i :: 0 <= i < |s| ==> IsUrlChar(s[i]);
    SplitBy16(g[0] % 4, g[1] / 16);
    SplitBy4(g[1] % 16, 0);
    assert (g[0] / 4) * 4 + v1 / 16 == g[0];
    assert (v1 % 16) * 16 + v2 / 4 == g[1];
    assert DecodeGroup(s) == Some([g[0], g[1]]);
    assert [g[0], g[1]] == g;
  }

  /** The four sextets of three bytes give the bytes back. */
  lemma JoinSplitSextets(x: Byte, y: Byte, z: Byte)
    ensures JoinSextets(x / 4, (x % 4) * 16 + y / 16, (y % 16) * 4 + z / 64, z % 64) == [x, y, z]
  {
    SplitBy16(x % 4, y / 16);
    SplitBy4(y % 16, z / 64);
  }

  /** Four alphabet characters decode to the three bytes their sextets spell. */
  lemma DecodeFourChars(v0: Sextet, v1: Sextet, v2: Sextet, v3: Sextet)
    ensures DecodeGroup([CharOf(v0), CharOf(v1), CharOf(v2), CharOf(v3)]) == Some(JoinSextets(v0, v1, v2, v3))
  {
    var s := [CharOf(v0), CharOf(v1), CharOf(v2), CharOf(v3)];
    ValueOfCharOf(v0);
    ValueOfCharOf(v1);
    ValueOfCharOf(v2);
    ValueOfCharOf(v3);
    assert forall i :: 0 <= i < |s| ==> IsUrlChar(s[i]);
  }

  lemma DecodeEncodeThree(g: seq<Byte>)
    requires |g| == 3
    ensures DecodeGroup(EncodeGroup(g)) == Some(g)
  {
    var x, y, z := g[0], g[1], g[2];
    var v1: Sextet := (x % 4) * 16 + y / 16;
    var v2: Sextet := (y % 16) * 4 + z / 64;
    assert EncodeGroup(g) == [CharOf(x / 4), CharOf(v1), CharOf(v2), CharOf(z % 64)];
    DecodeFourChars(x / 4, v1, v2, z % 64);
    JoinSplitSextets(x, y, z);
    assert [x, y, z] == g;
  }

  /** Each group decodes back to its bytes. */
  lemma DecodeEncodeGroup(g: seq<Byte>)
    requires 1 <= |g| <= 3
    ensures DecodeGroup(EncodeGroup(g)) == Some(g)
  {
    if |g| == 1 {
      DecodeEncodeOne(g);
    } else if |g| == 2 {
      DecodeEncodeTwo(g);
    } else {
      DecodeEncodeThree(g);
    }
  }

  /** Decoding undoes encoding: no two byte sequences share an encoding. */
  lemma {:induction false} DecodeEncode(b: seq<Byte>)
    ensures Decode(Encode(b)) == Some(b)
    decreases |b|
  {
    if 0 < |b| <= 3 {
      DecodeEncodeGroup(b);
    } else if |b| > 3 {
      var s := Encode(b);
      var head := EncodeGroup(b[..3]);
      assert s[..4] == head;
      assert s[4..] == Encode(b[3..]);
      DecodeEncodeGroup(b[..3]);
      DecodeEncode(b[3..]);
      assert b[..3] + b[3..] == b;
    }
  }

  /** Encoding distinguishes its inputs. */
  lemma EncodeInjective(a: seq<Byte>, b: seq<Byte>)
    requires Encode(a) == Encode(b)
    ensures a == b
  {
    DecodeEncode(a);
    DecodeEncode(b);
  }
}
