/**
 * Base 64 encoding with the URL- and filename-safe alphabet and without
 * padding (section 5 of RFC 4648, Go's base64.RawURLEncoding), which the
 * PKCE verifier and challenge are written in. Decode is its inverse, so
 * that the encoding is known to lose nothing.
 */
module Base64Url {
  import opened Wrappers

  newtype Byte = x: int | 0 <= x < 256

  /** The characters of the alphabet (table 2 of RFC 4648). */
  predicate IsAlphabetChar(c: char)
  {
    ('A' <= c <= 'Z') || ('a' <= c <= 'z') || ('0' <= c <= '9') || c == '-' || c == '_'
  }

  /** The character encoding the 6-bit value i. */
  function CharOf(i: int): (c: char)
    requires 0 <= i < 64
    ensures IsAlphabetChar(c)
  {
    if i < 26 then ('A' as int + i) as char
    else if i < 52 then ('a' as int + (i - 26)) as char
    else if i < 62 then ('0' as int + (i - 52)) as char
    else if i == 62 then '-'
    else '_'
  }

  /** The 6-bit value an alphabet character encodes. */
  function ValueOf(c: char): (i: int)
    requires IsAlphabetChar(c)
    ensures 0 <= i < 64
  {
    if 'A' <= c <= 'Z' then c as int - 'A' as int
    else if 'a' <= c <= 'z' then c as int - 'a' as int + 26
    else if '0' <= c <= '9' then c as int - '0' as int + 52
    else if c == '-' then 62
    else 63
  }

  lemma ValueOfCharOf(i: int)
    requires 0 <= i < 64
    ensures ValueOf(CharOf(i)) == i
  {
  }

  /** base64.RawURLEncoding.EncodedLen(n): four characters per three bytes, and two or three for a final one or two. */
  function EncodedLen(n: nat): nat
  {
    n / 3 * 4 + (n % 3 * 8 + 5) / 6
  }

  predicate InAlphabet(s: string)
  {
    forall i :: 0 <= i < |s| ==> IsAlphabetChar(s[i])
  }

  /**
   * One group of one to three bytes as two to four characters: the bytes'
   * bits, read six at a time, with zero bits after the last byte.
   */
  function EncodeGroup(g: seq<Byte>): (s: string)
    requires 1 <= |g| <= 3
    ensures |s| == |g| + 1 && InAlphabet(s)
  {
    var b0 := g[0] as int;
    var b1 := if |g| > 1 then g[1] as int else 0;
    var b2 := if |g| > 2 then g[2] as int else 0;
    var sextets := [CharOf(b0 / 4), CharOf(b0 % 4 * 16 + b1 / 16), CharOf(b1 % 16 * 4 + b2 / 64), CharOf(b2 % 64)];
    sextets[..|g| + 1]
  }

  /** The bytes a group of two to four characters encodes; bits after the last whole byte are dropped. */
  function DecodeGroup(s: string): (g: seq<Byte>)
    requires 2 <= |s| <= 4 && InAlphabet(s)
    ensures |g| == |s| - 1
  {
    var v0 := ValueOf(s[0]);
    var v1 := ValueOf(s[1]);
    var v2 := if |s| > 2 then ValueOf(s[2]) else 0;
    var v3 := if |s| > 3 then ValueOf(s[3]) else 0;
    var bytes := [(v0 * 4 + v1 / 16) as Byte, (v1 % 16 * 16 + v2 / 4) as Byte, (v2 % 4 * 64 + v3) as Byte];
    bytes[..|s| - 1]
  }

  /** The 6-bit values of a group, put back together, give the group's bytes. */
  lemma SplitAndJoin(b0: int, b1: int, b2: int)
    requires 0 <= b0 < 256 && 0 <= b1 < 256 && 0 <= b2 < 256
    ensures b0 / 4 * 4 + (b0 % 4 * 16 + b1 / 16) / 16 == b0
    ensures (b0 % 4 * 16 + b1 / 16) % 16 * 16 + (b1 % 16 * 4 + b2 / 64) / 4 == b1
    ensures (b1 % 16 * 4 + b2 / 64) % 4 * 64 + b2 % 64 == b2
  {
  }

  lemma DecodeEncodeGroup(g: seq<Byte>)
    requires 1 <= |g| <= 3
    ensures DecodeGroup(EncodeGroup(g)) == g
  {
    var b0 := g[0] as int;
    var b1 := if |g| > 1 then g[1] as int else 0;
    var b2 := if |g| > 2 then g[2] as int else 0;
    SplitAndJoin(b0, b1, b2);
    ValueOfCharOf(b0 / 4);
    ValueOfCharOf(b0 % 4 * 16 + b1 / 16);
    ValueOfCharOf(b1 % 16 * 4 + b2 / 64);
    ValueOfCharOf(b2 % 64);
  }

  /** The encoding of b: each group of three bytes as four characters, a final one or two bytes as two or three. */
  function Encode(b: seq<Byte>): (s: string)
    ensures |s| == EncodedLen(|b|)
    ensures InAlphabet(s)
    decreases |b|
  {
    if |b| == 0 then ""
    else if |b| < 3 then EncodeGroup(b)
    else EncodeGroup(b[..3]) + Encode(b[3..])
  }

  /** The bytes s encodes, or None when s is not an encoding: a character outside the alphabet, or a final group of one character. */
  function Decode(s: string): (r: Option<seq<Byte>>)
    decreases |s|
  {
    if |s| == 0 then Some([])
    else if |s| == 1 then None
    else
      var head := if |s| < 4 then s else s[..4];
      if !InAlphabet(head) then None
      else if |s| <= 4 then Some(DecodeGroup(head))
      else
        match Decode(s[4..])
        case None => None
        case Some(rest) => Some(DecodeGroup(head) + rest)
  }

  /** Decoding an encoding gives back the bytes. */
  lemma {:induction false} DecodeEncode(b: seq<Byte>)
    ensures Decode(Encode(b)) == Some(b)
    decreases |b|
  {
    if |b| == 0 {
    } else if |b| < 3 {
      DecodeEncodeGroup(b);
    } else {
      var s := Encode(b);
      assert s[..4] == EncodeGroup(b[..3]);
      assert s[4..] == Encode(b[3..]);
      DecodeEncodeGroup(b[..3]);
      DecodeEncode(b[3..]);
      assert InAlphabet(s[..4]);
      if |b| == 3 {
        assert s == s[..4] && b == b[..3];
      } else {
        assert |s| > 4;
        assert Decode(s) == Some(DecodeGroup(s[..4]) + b[3..]);
        assert b[..3] + b[3..] == b;
      }
    }
  }

  /** Distinct byte strings have distinct encodings. */
  lemma EncodeIsInjective(a: seq<Byte>, b: seq<Byte>)
    requires Encode(a) == Encode(b)
    ensures a == b
  {
    DecodeEncode(a);
    DecodeEncode(b);
  }
}
