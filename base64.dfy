/** `base64.b64encode(...).decode("utf-8")`, the standard alphabet of RFC 4648 section 4,
    with `=` padding. */
module Base64 {
  import opened Wrappers

  type byte = b: int | 0 <= b < 256

  /** The character of a six-bit value: `A`-`Z`, `a`-`z`, `0`-`9`, `+`, `/`. */
  function Char(i: nat): char
    requires i < 64
  {
    if i < 26 then ('A' as int + i) as char
    else if i < 52 then ('a' as int + i - 26) as char
    else if i < 62 then ('0' as int + i - 52) as char
    else if i == 62 then '+'
    else '/'
  }

  /** The position of a character in the alphabet; 64 for anything else. */
  function Index(c: char): (i: nat)
    ensures i <= 64
  {
    if 'A' <= c <= 'Z' then c as int - 'A' as int
    else if 'a' <= c <= 'z' then c as int - 'a' as int + 26
    else if '0' <= c <= '9' then c as int - '0' as int + 52
    else if c == '+' then 62
    else if c == '/' then 63
    else 64
  }

  lemma IndexOfChar(i: nat)
    requires i < 64
    ensures Index(Char(i)) == i
  {
  }

  function Quad(x: byte, y: byte, z: byte): (s: string)
    ensures |s| == 4
  {
    [Char(x / 4), Char((x % 4) * 16 + y / 16), Char((y % 16) * 4 + z / 64), Char(z % 64)]
  }

  /** Three bytes become four characters; a final group of one or two bytes is padded. */
  function Encode(b: seq<byte>): (s: string)
    ensures |s| == 4 * ((|b| + 2) / 3)
    decreases |b|
  {
    if |b| == 0 then ""
    else if |b| == 1 then [Char(b[0] / 4), Char((b[0] % 4) * 16), '=', '=']
    else if |b| == 2 then [Char(b[0] / 4), Char((b[0] % 4) * 16 + b[1] / 16), Char((b[1] % 16) * 4), '=']
    else Quad(b[0], b[1], b[2]) + Encode(b[3..])
  }

  /** Decoding of well-formed base64 text, four characters at a time. */
  function Decode(s: string): Option<seq<byte>>
    decreases |s|
  {
    if s == [] then Some([])
    else if |s| < 4 || Index(s[0]) == 64 || Index(s[1]) == 64 then None
    else
      var i0, i1 := Index(s[0]), Index(s[1]);
      var first: byte := i0 * 4 + i1 / 16;
      if |s| == 4 && s[2] == '=' && s[3] == '=' then Some([first])
      else if Index(s[2]) == 64 then None
      else
        var i2 := Index(s[2]);
        var second: byte := (i1 % 16) * 16 + i2 / 4;
        if |s| == 4 && s[3] == '=' then Some([first, second])
        else if Index(s[3]) == 64 then None
        else
          var third: byte := (i2 % 4) * 64 + Index(s[3]);
          match Decode(s[4..])
          case None => None
          case Some(rest) => Some([first, second, third] + rest)
  }

  lemma DecodeOne(x: byte)
    ensures Decode([Char(x / 4), Char((x % 4) * 16), '=', '=']) == Some([x])
  {
    IndexOfChar(x / 4);
    IndexOfChar((x % 4) * 16);
  }

  lemma DecodeTwo(x: byte, y: byte)
    ensures Decode([Char(x / 4), Char((x % 4) * 16 + y / 16), Char((y % 16) * 4), '=']) == Some([x, y])
  {
    var i1 := (x % 4) * 16 + y / 16;
    IndexOfChar(x / 4);
    IndexOfChar(i1);
    IndexOfChar((y % 16) * 4);
    assert i1 / 16 == x % 4 && i1 % 16 == y / 16;
  }

  lemma DecodeQuad(x: byte, y: byte, z: byte, rest: string)
    ensures Decode(Quad(x, y, z) + rest) ==
            match Decode(rest)
            case None => None
            case Some(r) => Some([x, y, z] + r)
  {
    var s := Quad(x, y, z) + rest;
    var i1 := (x % 4) * 16 + y / 16;
    var i2 := (y % 16) * 4 + z / 64;
    IndexOfChar(x / 4);
    IndexOfChar(i1);
    IndexOfChar(i2);
    IndexOfChar(z % 64);
    assert i1 / 16 == x % 4 && i1 % 16 == y / 16;
    assert i2 / 4 == y % 16 && i2 % 4 == z / 64;
    assert s[4..] == rest;
  }

  /** Decoding undoes encoding. */
  lemma {:induction false} DecodeEncode(b: seq<byte>)
    ensures Decode(Encode(b)) == Some(b)
    decreases |b|
  {
    if |b| == 1 {
      DecodeEncodeSingle(b);
    } else if |b| == 2 {
      DecodeEncodePair(b);
    } else if |b| >= 3 {
      DecodeEncode(b[3..]);
      DecodeEncodeGroup(b[0], b[1], b[2], b[3..]);
      assert [b[0], b[1], b[2]] + b[3..] == b;
    }
  }

  /** A final single byte decodes back through its two padding characters. */
  lemma DecodeEncodeSingle(b: seq<byte>)
    requires |b| == 1
    ensures Decode(Encode(b)) == Some(b)
  {
    assert b == [b[0]];
    EncodeOne(b[0]);
    DecodeOne(b[0]);
  }

  /** A final pair of bytes decodes back through its padding character. */
  lemma DecodeEncodePair(b: seq<byte>)
    requires |b| == 2
    ensures Decode(Encode(b)) == Some(b)
  {
    assert b == [b[0], b[1]];
    EncodeTwo(b[0], b[1]);
    DecodeTwo(b[0], b[1]);
  }

  lemma EncodeOne(x: byte)
    ensures Encode([x]) == [Char(x / 4), Char((x % 4) * 16), '=', '=']
  {
  }

  lemma EncodeTwo(x: byte, y: byte)
    ensures Encode([x, y]) == [Char(x / 4), Char((x % 4) * 16 + y / 16), Char((y % 16) * 4), '=']
  {
  }

  /** A group of three bytes decodes back whenever the rest does. */
  lemma DecodeEncodeGroup(x: byte, y: byte, z: byte, rest: seq<byte>)
    requires Decode(Encode(rest)) == Some(rest)
    ensures Decode(Encode([x, y, z] + rest)) == Some([x, y, z] + rest)
  {
    var b := [x, y, z] + rest;
    assert b[..3] == [x, y, z] && b[3..] == rest;
    assert Encode(b) == Quad(x, y, z) + Encode(rest);
    DecodeQuad(x, y, z, Encode(rest));
  }
}
