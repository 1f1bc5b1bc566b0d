/**
 * Base64 with the standard alphabet and `=` padding, as in section 4 of
 * RFC 4648 (the `general_purpose::STANDARD` engine of the base64 crate):
 * the encoder that renders the signature, and a decoder that undoes it.
 */
module Base64 {
  import opened Wrappers

  type byte = x: int | 0 <= x < 256

  /** The character for a 6-bit value: A-Z, a-z, 0-9, '+', '/'. */
  function Sextet(n: int): char
    requires 0 <= n < 64
  {
    if n < 26 then (65 + n) as char
    else if n < 52 then (71 + n) as char
    else if n < 62 then (n - 4) as char
    else if n == 62 then '+'
    else '/'
  }

  /** The 6-bit value of an alphabet character, -1 for any other character. */
  function SextetValue(c: char): (v: int)
    ensures -1 <= v < 64
  {
    if 'A' <= c <= 'Z' then c as int - 65
    else if 'a' <= c <= 'z' then c as int - 71
    else if '0' <= c <= '9' then c as int + 4
    else if c == '+' then 62
    else if c == '/' then 63
    else -1
  }

  predicate InAlphabet(c: char)
  {
    SextetValue(c) >= 0
  }

  lemma SextetValueOfSextet(n: int)
    requires 0 <= n < 64
    ensures SextetValue(Sextet(n)) == n
  {
  }

  /** Three bytes become four characters; a final group of one or two bytes is
      padded with "==" or "=". */
  function Encode(b: seq<byte>): (s: string)
    ensures |s| == 4 * ((|b| + 2) / 3)
    decreases |b|
  {
    if |b| == 0 then ""
    else if |b| == 1 then
      [Sextet(b[0] / 4), Sextet(b[0] % 4 * 16), '=', '=']
    else if |b| == 2 then
      [Sextet(b[0] / 4), Sextet(b[0] % 4 * 16 + b[1] / 16), Sextet(b[1] % 16 * 4), '=']
    else
      [Sextet(b[0] / 4), Sextet(b[0] % 4 * 16 + b[1] / 16),
       Sextet(b[1] % 16 * 4 + b[2] / 64), Sextet(b[2] % 64)] + Encode(b[3..])
  }

  /** Reads groups of four characters back into bytes; None for text that is not
      a padded encoding. */
  function Decode(s: string): Option<seq<byte>>
    decreases |s|
  {
    if |s| == 0 then Some([])
    else if |s| < 4 then None
    else
      var a, b, c, d := SextetValue(s[0]), SextetValue(s[1]), SextetValue(s[2]), SextetValue(s[3]);
      if a < 0 || b < 0 then None
      else if |s| == 4 && s[2] == '=' && s[3] == '=' then Some([a * 4 + b / 16])
      else if c < 0 then None
      else if |s| == 4 && s[3] == '=' then Some([a * 4 + b / 16, b % 16 * 16 + c / 4])
      else if d < 0 then None
      else
        match Decode(s[4..])
        case None => None
        case Some(rest) => Some([a * 4 + b / 16, b % 16 * 16 + c / 4, c % 4 * 64 + d] + rest)
  }

  lemma ByteSplits(x: byte, y: byte, z: byte)
    ensures (x / 4) * 4 + (x % 4 * 16 + y / 16) / 16 == x
    ensures (x % 4 * 16 + y / 16) % 16 * 16 + (y % 16 * 4 + z / 64) / 4 == y
    ensures (y % 16 * 4 + z / 64) % 4 * 64 + z % 64 == z
  {
  }

  /** The four characters of a full group decode to its three bytes. */
  lemma DecodeGroup(x: byte, y: byte, z: byte, t: string)
    ensures var g := [Sextet(x / 4), Sextet(x % 4 * 16 + y / 16),
                      Sextet(y % 16 * 4 + z / 64), Sextet(z % 64)];
      Decode(g + t) == if Decode(t).Some? then Some([x, y, z] + Decode(t).value) else None
  {
    var g := [Sextet(x / 4), Sextet(x % 4 * 16 + y / 16),
              Sextet(y % 16 * 4 + z / 64), Sextet(z % 64)];
    ByteSplits(x, y, z);
    SextetValueOfSextet(x / 4);
    SextetValueOfSextet(x % 4 * 16 + y / 16);
    SextetValueOfSextet(y % 16 * 4 + z / 64);
    SextetValueOfSextet(z % 64);
    assert (g + t)[4..] == t;
  }

  lemma DecodeOne(x: byte)
    ensures Decode([Sextet(x / 4), Sextet(x % 4 * 16), '=', '=']) == Some([x])
  {
    ByteSplits(x, 0, 0);
    SextetValueOfSextet(x / 4);
    SextetValueOfSextet(x % 4 * 16);
  }

  lemma DecodeTwo(x: byte, y: byte)
    ensures Decode([Sextet(x / 4), Sextet(x % 4 * 16 + y / 16), Sextet(y % 16 * 4), '=']) == Some([x, y])
  {
    var s := [Sextet(x / 4), Sextet(x % 4 * 16 + y / 16), Sextet(y % 16 * 4), '='];
    ByteSplits(x, y, 0);
    SextetValueOfSextet(x / 4);
    SextetValueOfSextet(x % 4 * 16 + y / 16);
    SextetValueOfSextet(y % 16 * 4);
    assert SextetValue(s[2]) >= 0;
  }

  /** Decoding an encoding gives the bytes back. */
  lemma {:induction false} DecodeEncode(b: seq<byte>)
    ensures Decode(Encode(b)) == Some(b)
    decreases |b|
  {
    if |b| == 1 {
      DecodeOne(b[0]);
      assert b == [b[0]];
    } else if |b| == 2 {
      DecodeTwo(b[0], b[1]);
      assert b == [b[0], b[1]];
    } else if |b| >= 3 {
      DecodeEncode(b[3..]);
      DecodeFirstGroup(b, Encode(b[3..]), b[3..]);
    }
  }

  /** A full leading group, decoded in front of whatever the rest `t` decodes to. */
  lemma DecodeFirstGroup(b: seq<byte>, t: string, r: seq<byte>)
    requires |b| >= 3 && t == Encode(b[3..]) && r == b[3..] && Decode(t) == Some(r)
    ensures Decode(Encode(b)) == Some(b)
  {
    var x, y, z := b[0], b[1], b[2];
    EncodeFirstGroup(b);
    DecodeGroupOf(x, y, z, t, r);
    assert [x, y, z] + r == b;
  }

  lemma EncodeFirstGroup(b: seq<byte>)
    requires |b| >= 3
    ensures Encode(b) == [Sextet(b[0] / 4), Sextet(b[0] % 4 * 16 + b[1] / 16),
                          Sextet(b[1] % 16 * 4 + b[2] / 64), Sextet(b[2] % 64)] + Encode(b[3..])
  {
  }

  lemma DecodeGroupOf(x: byte, y: byte, z: byte, t: string, r: seq<byte>)
    requires Decode(t) == Some(r)
    ensures Decode([Sextet(x / 4), Sextet(x % 4 * 16 + y / 16),
                    Sextet(y % 16 * 4 + z / 64), Sextet(z % 64)] + t) == Some([x, y, z] + r)
  {
    DecodeGroup(x, y, z, t);
  }

  /** Padding characters: 0, 2 or 1 for a length that is 0, 1 or 2 modulo 3. */
  function PadLength(n: nat): nat
  {
    (3 - n % 3) % 3
  }

  /** Every character is in the alphabet except the trailing padding, which is all '='. */
  lemma {:induction false} EncodeLayout(b: seq<byte>, i: nat)
    requires i < |Encode(b)|
    ensures i < |Encode(b)| - PadLength(|b|) ==> InAlphabet(Encode(b)[i])
    ensures i >= |Encode(b)| - PadLength(|b|) ==> Encode(b)[i] == '='
    decreases |b|
  {
    var s := Encode(b);
    if i >= 4 {
      EncodeLayout(b[3..], i - 4);
      assert |s| == 4 + |Encode(b[3..])|;
      assert PadLength(|b|) == PadLength(|b| - 3);
      assert s[i] == Encode(b[3..])[i - 4];
    } else if |b| == 1 {
      SextetValueOfSextet(b[0] / 4);
      SextetValueOfSextet(b[0] % 4 * 16);
    } else if |b| == 2 {
      SextetValueOfSextet(b[0] / 4);
      SextetValueOfSextet(b[0] % 4 * 16 + b[1] / 16);
      SextetValueOfSextet(b[1] % 16 * 4);
    } else {
      SextetValueOfSextet(b[0] / 4);
      SextetValueOfSextet(b[0] % 4 * 16 + b[1] / 16);
      SextetValueOfSextet(b[1] % 16 * 4 + b[2] / 64);
      SextetValueOfSextet(b[2] % 64);
    }
  }
}
