/**
 * Base64 encoding as defined in section 4 of RFC 4648, which `base64_encode`
 * implements and the Authorization header is built from, together with a
 * decoder that serves as its inverse.
 */
module Base64 {
  import opened Wrappers

  /** One byte of a PHP string. */
  type byte = x: int | 0 <= x < 256

  /** The character of the base64 alphabet that stands for the 6-bit value `v`. */
  function Char(v: int): (c: char)
    requires 0 <= v < 64
    ensures c != '='
  {
    if v < 26 then ('A' as int + v) as char
    else if v < 52 then ('a' as int + (v - 26)) as char
    else if v < 62 then ('0' as int + (v - 52)) as char
    else if v == 62 then '+'
    else '/'
  }

  /** The 6-bit value of an alphabet character; None for any other character. */
  function Value(c: char): (r: Option<int>)
    ensures r.Some? ==> 0 <= r.value < 64 && Char(r.value) == c
  {
    if 'A' <= c <= 'Z' then Some(c as int - 'A' as int)
    else if 'a' <= c <= 'z' then Some(c as int - 'a' as int + 26)
    else if '0' <= c <= '9' then Some(c as int - '0' as int + 52)
    else if c == '+' then Some(62)
    else if c == '/' then Some(63)
    else None
  }

  /** Every 6-bit value is recovered from its character. */
  lemma ValueOfChar(v: int)
    requires 0 <= v < 64
    ensures Value(Char(v)) == Some(v)
  {
  }

  /** Encodes one group of one to three bytes as four characters, padded with `=`. */
  function EncodeGroup(g: seq<byte>): (r: string)
    requires 1 <= |g| <= 3
    ensures |r| == 4
  {
    if |g| == 1 then
      [Char(g[0] / 4), Char(g[0] % 4 * 16), '=', '=']
    else if |g| == 2 then
      [Char(g[0] / 4), Char(g[0] % 4 * 16 + g[1] / 16), Char(g[1] % 16 * 4), '=']
    else
      [Char(g[0] / 4), Char(g[0] % 4 * 16 + g[1] / 16), Char(g[1] % 16 * 4 + g[2] / 64), Char(g[2] % 64)]
  }

  /** Encodes `b` three bytes at a time; only the final group may be short. */
  function Encode(b: seq<byte>): (r: string)
    ensures |r| == 4 * ((|b| + 2) / 3)
    decreases |b|
  {
    if |b| == 0 then ""
    else if |b| <= 3 then EncodeGroup(b)
    else EncodeGroup(b[..3]) + Encode(b[3..])
  }

  /** Decodes one group of four characters; `last` allows padding in it. */
  function DecodeGroup(q: string, last: bool): (r: Option<seq<byte>>)
    requires |q| == 4
    ensures r.Some? ==> 1 <= |r.value| <= 3
  {
    var a, b, c, d := Value(q[0]), Value(q[1]), Value(q[2]), Value(q[3]);
    if a.None? || b.None? then None
    else if last && q[2] == '=' && q[3] == '=' then
      Some([a.value * 4 + b.value / 16])
    else if c.None? then None
    else if last && q[3] == '=' then
      Some([a.value * 4 + b.value / 16, b.value % 16 * 16 + c.value / 4])
    else if d.None? then None
    else
      Some([a.value * 4 + b.value / 16, b.value % 16 * 16 + c.value / 4, c.value % 4 * 64 + d.value])
  }

  /** Decodes a base64 text; None when it is not a sequence of well-formed groups. */
  function Decode(s: string): (r: Option<seq<byte>>)
    decreases |s|
  {
    if |s| == 0 then Some([])
    else if |s| < 4 then None
    else
      match DecodeGroup(s[..4], |s| == 4)
      case None => None
      case Some(group) =>
        match Decode(s[4..])
        case None => None
        case Some(rest) => Some(group + rest)
  }

  /** The bit arithmetic that splits three bytes into four 6-bit values and joins them again. */
  lemma Regroup(x: byte, y: byte, z: byte)
    ensures x / 4 * 4 + (x % 4 * 16 + y / 16) / 16 == x
    ensures (x % 4 * 16 + y / 16) % 16 * 16 + (y % 16 * 4 + z / 64) / 4 == y
    ensures (y % 16 * 4 + z / 64) % 4 * 64 + z % 64 == z
  {
  }

  /** A full group of three bytes decodes back from its four characters. */
  lemma DecodeFullGroup(x: byte, y: byte, z: byte, last: bool)
    ensures DecodeGroup(EncodeGroup([x, y, z]), last) == Some([x, y, z])
  {
    var a, b, c, d := x / 4, x % 4 * 16 + y / 16, y % 16 * 4 + z / 64, z % 64;
    Regroup(x, y, z);
    ValueOfChar(a);
    ValueOfChar(b);
    ValueOfChar(c);
    ValueOfChar(d);
    var q := EncodeGroup([x, y, z]);
    assert q == [Char(a), Char(b), Char(c), Char(d)];
    assert Value(q[0]) == Some(a) && Value(q[1]) == Some(b) && Value(q[2]) == Some(c) && Value(q[3]) == Some(d);
    assert q[3] != '=';
  }

  /** A final group of two bytes decodes back from its three characters and padding. */
  lemma DecodeTwoByteGroup(x: byte, y: byte)
    ensures DecodeGroup(EncodeGroup([x, y]), true) == Some([x, y])
  {
    var a, b, c := x / 4, x % 4 * 16 + y / 16, y % 16 * 4;
    Regroup(x, y, 0);
    ValueOfChar(a);
    ValueOfChar(b);
    ValueOfChar(c);
    var q := EncodeGroup([x, y]);
    assert q == [Char(a), Char(b), Char(c), '='];
    assert Value(q[0]) == Some(a) && Value(q[1]) == Some(b) && Value(q[2]) == Some(c);
  }

  /** A final group of one byte decodes back from its two characters and padding. */
  lemma DecodeOneByteGroup(x: byte)
    ensures DecodeGroup(EncodeGroup([x]), true) == Some([x])
  {
    var a, b := x / 4, x % 4 * 16;
    Regroup(x, 0, 0);
    ValueOfChar(a);
    ValueOfChar(b);
    var q := EncodeGroup([x]);
    assert q == [Char(a), Char(b), '=', '='];
    assert Value(q[0]) == Some(a) && Value(q[1]) == Some(b);
  }

  /** Each group decodes back from its characters; a short group only as the last one. */
  lemma DecodeEncodeGroup(g: seq<byte>, last: bool)
    requires 1 <= |g| <= 3
    requires |g| < 3 ==> last
    ensures DecodeGroup(EncodeGroup(g), last) == Some(g)
  {
    if |g| == 1 {
      assert g == [g[0]];
      DecodeOneByteGroup(g[0]);
    } else if |g| == 2 {
      assert g == [g[0], g[1]];
      DecodeTwoByteGroup(g[0], g[1]);
    } else {
      assert g == [g[0], g[1], g[2]];
      DecodeFullGroup(g[0], g[1], g[2], last);
    }
  }

  /** Decoding a text proceeds group by group. */
  lemma DecodeAppend(group: string, rest: string)
    requires |group| == 4
    ensures Decode(group + rest) ==
      match DecodeGroup(group, rest == [])
      case None => None
      case Some(g) => match Decode(rest) case None => None case Some(r) => Some(g + r)
  {
    var s := group + rest;
    assert s[..4] == group && s[4..] == rest;
  }

  /** Decoding undoes encoding: the header built from a token gives the token back. */
  lemma {:induction false} DecodeEncode(b: seq<byte>)
    ensures Decode(Encode(b)) == Some(b)
    decreases |b|
  {
    if |b| == 0 {
    } else if |b| <= 3 {
      DecodeEncodeGroup(b, true);
      DecodeAppend(EncodeGroup(b), []);
      assert EncodeGroup(b) + [] == EncodeGroup(b) && b + [] == b;
    } else {
      var rest := Encode(b[3..]);
      DecodeEncodeGroup(b[..3], false);
      DecodeEncode(b[3..]);
      DecodeAppend(EncodeGroup(b[..3]), rest);
      assert b[..3] + b[3..] == b;
    }
  }

  /** A token "abc" gives the header value "Basic YWJj". */
  lemma EncodeAbc()
    ensures Encode(['a' as int, 'b' as int, 'c' as int]) == "YWJj"
  {
  }

  /** The longest test vector of section 10 of RFC 4648: "foobar" encodes as "Zm9vYmFy". */
  lemma EncodeFoobar()
    ensures Encode(['f' as int, 'o' as int, 'o' as int, 'b' as int, 'a' as int, 'r' as int]) == "Zm9vYmFy"
  {
  }
}
